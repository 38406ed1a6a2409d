/** The two-tower simulation engine: a payment tower that fixes one monthly
    budget for the whole run (every debt's minimum plus the extra), and a
    debt tower that lists the active debts and sorts them by strategy. Each
    month the budget is drawn down in strategy order: every active debt
    takes its minimum, or what is left of the budget if that is less,
    until the budget is spent; what remains after that goes, whole, to the
    first active debt in strategy order.

    A `TwoTowerDebt` charges its month of interest inside `apply_payment`,
    so the debt that receives the remainder is charged interest a second
    time that month, and a payment that does not pay the debt off lowers
    the balance only by the part of it that exceeds the interest. The
    model states both as the code has them. */
module TwoTowerSimulationEngine {
  import opened Common
  import Ordering

  // ---------------------------------------------------------------------
  // A debt as a value
  // ---------------------------------------------------------------------

  datatype TowerDebtRec = TowerDebtRec(
    id: int,
    name: string,
    principal: real,
    apr: real,
    minPayment: real,
    status: string,
    monthsPaid: int,
    totalInterestPaid: real)

  predicate IsActive(d: TowerDebtRec)
  {
    d.status == ACTIVE
  }

  /** A new debt is active and has paid nothing yet. */
  function NewTowerDebt(id: int, name: string, principal: real, apr: real, minPayment: real): TowerDebtRec
  {
    TowerDebtRec(id, name, principal, apr, minPayment, ACTIVE, 0, 0.0)
  }

  /** One month of interest at the annual rate `apr`. */
  function MonthlyInterest(d: TowerDebtRec): (r: real)
    ensures 12.0 * r == d.principal * d.apr
    ensures d.principal >= 0.0 && d.apr >= 0.0 ==> r >= 0.0
  {
    d.principal * (d.apr / 12.0)
  }

  /** The dictionary `apply_payment` returns. */
  datatype TowerPaymentResult = TowerPaymentResult(
    principalPayment: real,
    interestPayment: real,
    remaining: real)

  /** `apply_payment`: a no-op on an inactive debt. An active debt first
      adds a month of interest to its balance. A payment that covers that
      balance pays the debt off, its interest part being the month's
      interest. Any other payment counts the smaller of itself and the
      interest as interest paid, and lowers the balance only by what it
      exceeds the interest by, if anything. Either way one more month is
      counted, the interest part is added to the interest paid, and a debt
      that owed nothing negative at a rate that is not negative still owes
      nothing negative. */
  function TowerPay(d: TowerDebtRec, payment: real): (r: (TowerDebtRec, TowerPaymentResult))
    ensures !IsActive(d) ==> r == (d, TowerPaymentResult(0.0, 0.0, d.principal))
    ensures IsActive(d) ==>
      var interest := MonthlyInterest(d);
      && r.0 == d.(principal := r.0.principal, status := r.0.status, monthsPaid := d.monthsPaid + 1,
                   totalInterestPaid := r.0.totalInterestPaid)
      && r.0.totalInterestPaid - d.totalInterestPaid == r.1.interestPayment
      && r.1.remaining == r.0.principal
      && (r.0.status == PAID <==> payment >= d.principal + interest)
      && (r.0.status == PAID ==>
            r.0.principal == 0.0 && r.1.interestPayment == interest && r.1.principalPayment == d.principal)
      && (r.0.status != PAID ==>
            && r.0.status == ACTIVE
            && r.1.interestPayment <= payment && r.1.interestPayment <= interest
            && (r.1.interestPayment == payment || r.1.interestPayment == interest)
            && r.1.principalPayment >= 0.0 && r.1.principalPayment >= payment - interest
            && (r.1.principalPayment == 0.0 || r.1.principalPayment == payment - interest)
            && r.0.principal == d.principal + interest - r.1.principalPayment)
      && (d.principal >= 0.0 && d.apr >= 0.0 ==> r.0.principal >= 0.0)
  {
    if !IsActive(d) then
      (d, TowerPaymentResult(0.0, 0.0, d.principal))
    else
      var interest := MonthlyInterest(d);
      var balance := d.principal + interest;
      if payment >= balance then
        var paid := d.(principal := 0.0, status := PAID, monthsPaid := d.monthsPaid + 1,
                       totalInterestPaid := d.totalInterestPaid + interest);
        (paid, TowerPaymentResult(balance - interest, interest, 0.0))
      else
        var interestPayment := if interest < payment then interest else payment;
        var principalPayment := if payment - interest > 0.0 then payment - interest else 0.0;
        var rest := d.(principal := balance - principalPayment, monthsPaid := d.monthsPaid + 1,
                       totalInterestPaid := d.totalInterestPaid + interestPayment);
        (rest, TowerPaymentResult(principalPayment, interestPayment, rest.principal))
  }

  /** A payment that covers the interest but not the balance leaves the
      debt owing what a single charge of interest would leave, plus the
      interest once more: the interest part of the payment lowers nothing. */
  lemma PartialPaymentKeepsInterest(d: TowerDebtRec, payment: real)
    requires IsActive(d)
    requires MonthlyInterest(d) <= payment < d.principal + MonthlyInterest(d)
    ensures TowerPay(d, payment).0.principal == (d.principal + MonthlyInterest(d) - payment) + MonthlyInterest(d)
    ensures TowerPay(d, payment).1.interestPayment == MonthlyInterest(d)
  {
  }

  /** A payment below the month's interest is counted as interest paid but
      leaves the balance at the principal plus the full interest. */
  lemma PaymentBelowInterestIsLost(d: TowerDebtRec, payment: real)
    requires IsActive(d) && d.principal >= 0.0
    requires payment < MonthlyInterest(d)
    ensures TowerPay(d, payment).0.principal == d.principal + MonthlyInterest(d)
    ensures TowerPay(d, payment).1.interestPayment == payment
  {
  }

  /** The terms a run never changes. */
  predicate SameTerms(a: TowerDebtRec, b: TowerDebtRec)
  {
    a.id == b.id && a.name == b.name && a.apr == b.apr && a.minPayment == b.minPayment
  }

  /** How a debt may change during a run: not at all, or, if it was active,
      only its balance and history, ending active or paid, at zero once
      paid, and owing nothing negative if it owed nothing negative at a
      rate that is not negative. */
  predicate Evolves(d0: TowerDebtRec, d1: TowerDebtRec)
  {
    || d1 == d0
    || (&& IsActive(d0) && SameTerms(d0, d1)
        && (d1.status == ACTIVE || d1.status == PAID)
        && (d1.status == PAID ==> d1.principal == 0.0)
        && (d0.principal >= 0.0 && d0.apr >= 0.0 ==> d1.principal >= 0.0))
  }

  lemma EvolvesTransitive(a: TowerDebtRec, b: TowerDebtRec, c: TowerDebtRec)
    requires Evolves(a, b) && Evolves(b, c)
    ensures Evolves(a, c)
  {
  }

  /** A payment lets a debt evolve. */
  lemma PayEvolves(d: TowerDebtRec, payment: real)
    ensures Evolves(d, TowerPay(d, payment).0)
  {
  }

  /** `Evolves`, position by position, written recursively so that the
      verifier unfolds it only where a proof asks for it. */
  predicate AllEvolve(a: seq<TowerDebtRec>, b: seq<TowerDebtRec>)
    decreases |a|
  {
    && |a| == |b|
    && (a == [] || (AllEvolve(a[..|a| - 1], b[..|b| - 1]) && Evolves(a[|a| - 1], b[|b| - 1])))
  }

  lemma {:induction false} AllEvolveAt(a: seq<TowerDebtRec>, b: seq<TowerDebtRec>, j: nat)
    requires AllEvolve(a, b) && j < |a|
    ensures |b| == |a| && Evolves(a[j], b[j])
    decreases |a|
  {
    var n := |a| - 1;
    if j < n {
      AllEvolveAt(a[..n], b[..n], j);
    }
  }

  lemma {:induction false} AllEvolveIntro(a: seq<TowerDebtRec>, b: seq<TowerDebtRec>)
    requires |a| == |b| && forall j :: 0 <= j < |a| ==> Evolves(a[j], b[j])
    ensures AllEvolve(a, b)
    decreases |a|
  {
    if a != [] {
      var n := |a| - 1;
      AllEvolveIntro(a[..n], b[..n]);
    }
  }

  lemma AllEvolveRefl(a: seq<TowerDebtRec>)
    ensures AllEvolve(a, a)
  {
    AllEvolveIntro(a, a);
  }

  /** A payment to the debt at one position. */
  lemma AllEvolvePay(a: seq<TowerDebtRec>, t: nat, payment: real)
    requires t < |a|
    ensures AllEvolve(a, a[t := TowerPay(a[t], payment).0])
  {
    PayEvolves(a[t], payment);
    AllEvolveIntro(a, a[t := TowerPay(a[t], payment).0]);
  }

  lemma AllEvolveTransitive(a: seq<TowerDebtRec>, b: seq<TowerDebtRec>, c: seq<TowerDebtRec>)
    requires AllEvolve(a, b) && AllEvolve(b, c)
    ensures AllEvolve(a, c)
  {
    forall j | 0 <= j < |a| ensures Evolves(a[j], c[j]) {
      AllEvolveAt(a, b, j);
      AllEvolveAt(b, c, j);
      EvolvesTransitive(a[j], b[j], c[j]);
    }
    AllEvolveIntro(a, c);
  }

  // ---------------------------------------------------------------------
  // The payment tower and the debt tower
  // ---------------------------------------------------------------------

  /** `PaymentTower`: the budget is fixed when the tower is built. */
  datatype PaymentTower = PaymentTower(totalAvailable: real, extraPayment: real)

  function NewPaymentTower(totalPayment: real, extraPayment: real): (t: PaymentTower)
    ensures t.extraPayment == extraPayment
  {
    PaymentTower(totalPayment + extraPayment, extraPayment)
  }

  /** `get_available_payment`: whatever the month, the total payment and the
      extra the tower was built with. */
  function GetAvailablePayment(t: PaymentTower): real
  {
    t.totalAvailable
  }

  lemma AvailablePaymentIsFixed(totalPayment: real, extraPayment: real)
    ensures GetAvailablePayment(NewPaymentTower(totalPayment, extraPayment)) - extraPayment == totalPayment
  {
  }

  /** `get_active_debts`: the positions of the active debts, in list order. */
  function GetActiveDebts(ds: seq<TowerDebtRec>): (r: seq<nat>)
    ensures forall k :: 0 <= k < |r| ==> r[k] < |ds| && IsActive(ds[r[k]])
    ensures forall j :: 0 <= j < |ds| && IsActive(ds[j]) ==> j in r
    ensures forall a, b :: 0 <= a < b < |r| ==> r[a] < r[b]
    decreases |ds|
  {
    if ds == [] then []
    else
      var front := GetActiveDebts(ds[..|ds| - 1]);
      if IsActive(ds[|ds| - 1]) then front + [|ds| - 1] else front
  }

  function MinPayments(ds: seq<TowerDebtRec>): (r: seq<real>)
    ensures |r| == |ds| && forall k :: 0 <= k < |ds| ==> r[k] == ds[k].minPayment
  {
    seq(|ds|, k requires 0 <= k < |ds| => ds[k].minPayment)
  }

  /** The minimums of the debts at the listed positions, in that order. */
  function MinsAt(ds: seq<TowerDebtRec>, pos: seq<nat>): (r: seq<real>)
    requires Ordering.InRange(pos, |ds|)
    ensures |r| == |pos| && forall k :: 0 <= k < |pos| ==> r[k] == ds[pos[k]].minPayment
  {
    seq(|pos|, k requires 0 <= k < |pos| => ds[pos[k]].minPayment)
  }

  /** `get_total_min_payments`: the minimums of the active debts only. */
  function GetTotalMinPayments(ds: seq<TowerDebtRec>): real
  {
    var act := GetActiveDebts(ds);
    assert Ordering.InRange(act, |ds|);
    Sum(MinsAt(ds, act))
  }

  /** With every debt active, the active minimums are all the minimums. */
  lemma TotalMinPaymentsAllActive(ds: seq<TowerDebtRec>)
    requires forall j :: 0 <= j < |ds| ==> IsActive(ds[j])
    ensures GetTotalMinPayments(ds) == Sum(MinPayments(ds))
  {
    AllActiveIndices(ds);
    assert Ordering.InRange(Ordering.Positions(|ds|), |ds|);
    assert MinsAt(ds, Ordering.Positions(|ds|)) == MinPayments(ds);
  }

  lemma {:induction false} AllActiveIndices(ds: seq<TowerDebtRec>)
    requires forall j :: 0 <= j < |ds| ==> IsActive(ds[j])
    ensures GetActiveDebts(ds) == Ordering.Positions(|ds|)
    decreases |ds|
  {
    if ds != [] {
      var n := |ds| - 1;
      AllActiveIndices(ds[..n]);
    }
  }

  /** Without an active debt there is nothing to pay the minimum of. */
  lemma TotalMinPaymentsNoneActive(ds: seq<TowerDebtRec>)
    requires forall j :: 0 <= j < |ds| ==> !IsActive(ds[j])
    ensures GetTotalMinPayments(ds) == 0.0
  {
  }

  /** The sort key of a strategy, ascending: a descending sort on the rate
      is a stable ascending sort on the negated rate. */
  function StrategyKeys(ds: seq<TowerDebtRec>, avalanche: bool): (r: seq<real>)
    ensures |r| == |ds|
    ensures forall k :: 0 <= k < |ds| ==> r[k] == if avalanche then -ds[k].apr else ds[k].principal
  {
    seq(|ds|, k requires 0 <= k < |ds| => if avalanche then -ds[k].apr else ds[k].principal)
  }

  /** `sort_by_strategy`: the active debts, each once, sorted by rate
      descending for "avalanche", by balance ascending for "snowball", and
      left in list order for any other strategy. */
  function SortByStrategy(ds: seq<TowerDebtRec>, strategy: string): (r: seq<nat>)
    ensures forall k :: 0 <= k < |r| ==> r[k] < |ds| && IsActive(ds[r[k]])
    ensures forall j :: 0 <= j < |ds| && IsActive(ds[j]) ==> j in r
    ensures forall a, b :: 0 <= a < b < |r| ==> r[a] != r[b]
  {
    var act := GetActiveDebts(ds);
    assert Ordering.InRange(act, |ds|);
    if strategy == "avalanche" || strategy == "snowball" then
      var keys := StrategyKeys(ds, strategy == "avalanche");
      Ordering.SortedSubsetMembers(keys, act);
      var r := Ordering.SortedSubset(keys, act);
      assert forall a, b :: 0 <= a < b < |r| ==> Ordering.Precedes(keys, r[a], r[b]);
      r
    else
      act
  }

  /** The order `sort_by_strategy` promises: for "avalanche" a debt comes
      before another when its rate is higher, or equal and it is earlier in
      the list; for "snowball" when its balance is smaller, or equal and it
      is earlier in the list; any other strategy keeps the list order. */
  lemma SortByStrategyOrder(ds: seq<TowerDebtRec>, strategy: string)
    ensures var r := SortByStrategy(ds, strategy);
      forall a, b :: 0 <= a < b < |r| ==>
        if strategy == "avalanche" then
          ds[r[a]].apr > ds[r[b]].apr || (ds[r[a]].apr == ds[r[b]].apr && r[a] < r[b])
        else if strategy == "snowball" then
          ds[r[a]].principal < ds[r[b]].principal || (ds[r[a]].principal == ds[r[b]].principal && r[a] < r[b])
        else
          r[a] < r[b]
  {
    var act := GetActiveDebts(ds);
    var r := SortByStrategy(ds, strategy);
    if strategy == "avalanche" || strategy == "snowball" {
      var keys := StrategyKeys(ds, strategy == "avalanche");
      forall a, b | 0 <= a < b < |r| ensures Ordering.Precedes(keys, r[a], r[b]) {
      }
    }
  }

  /** Any other strategy returns exactly the active debts in list order. */
  lemma SortByOtherStrategy(ds: seq<TowerDebtRec>, strategy: string)
    requires strategy != "avalanche" && strategy != "snowball"
    ensures SortByStrategy(ds, strategy) == GetActiveDebts(ds)
  {
  }

  /** There is a debt to sort exactly when some debt is active. */
  lemma SortByStrategyEmpty(ds: seq<TowerDebtRec>, strategy: string)
    ensures SortByStrategy(ds, strategy) == [] <==> GetActiveDebts(ds) == []
  {
    var r := SortByStrategy(ds, strategy);
    var act := GetActiveDebts(ds);
    if r != [] {
      assert r[0] in act;
    }
    if act != [] {
      assert act[0] in r;
    }
  }

  // ---------------------------------------------------------------------
  // One month, as values
  // ---------------------------------------------------------------------

  /** The state inside one month: the working debts, the running totals,
      what is left of the month's budget, and the month's record. */
  datatype TowerPass = TowerPass(
    debts: seq<TowerDebtRec>,
    totalInterest: real,
    totalPayments: real,
    remaining: real,
    record: MonthRecord)

  /** What the minimum pass pays a debt: its minimum when what is left of
      the budget covers it, otherwise all that is left. */
  function MinimumShare(minPayment: real, remaining: real): (r: real)
    ensures r <= minPayment && r <= remaining
    ensures r == minPayment || r == remaining
  {
    if remaining >= minPayment then minPayment else remaining
  }

  /** The minimum pass at the debt at position `i`: nothing once the budget
      is spent or if the debt is not active; otherwise the debt's month of
      interest is counted, it is paid its share, and the month records the
      payment, an entry for the debt and its name if that paid it off. */
  function MinStep(p: TowerPass, i: nat): (r: TowerPass)
    requires i < |p.debts|
    ensures |r.debts| == |p.debts|
    ensures forall j :: 0 <= j < |p.debts| && j != i ==> r.debts[j] == p.debts[j]
    ensures Evolves(p.debts[i], r.debts[i])
    ensures r.totalInterest - r.record.interestThisMonth == p.totalInterest - p.record.interestThisMonth
    ensures r.totalPayments - r.record.paymentsThisMonth == p.totalPayments - p.record.paymentsThisMonth
    ensures r.record.paymentsThisMonth + r.remaining == p.record.paymentsThisMonth + p.remaining
    ensures p.remaining >= 0.0 ==> r.remaining >= 0.0
    ensures p.remaining <= 0.0 || !IsActive(p.debts[i]) ==> r == p
    ensures r.record.month == p.record.month && r.record.dateOffsetDays == p.record.dateOffsetDays
  {
    var d := p.debts[i];
    if p.remaining <= 0.0 || !IsActive(d) then p
    else
      var interest := MonthlyInterest(d);
      var payment := MinimumShare(d.minPayment, p.remaining);
      var paid := TowerPay(d, payment);
      PayEvolves(d, payment);
      var info := DebtInfo(d.id, d.name, paid.0.principal, paid.1.interestPayment, payment, paid.0.status);
      TowerPass(p.debts[i := paid.0], p.totalInterest + interest, p.totalPayments + payment, p.remaining - payment,
                p.record.(interestThisMonth := p.record.interestThisMonth + interest,
                          paymentsThisMonth := p.record.paymentsThisMonth + payment,
                          debts := p.record.debts + [info],
                          paidOffThisMonth := p.record.paidOffThisMonth + (if paid.0.status == PAID then [d.name] else [])))
  }

  /** A debt the minimum pass reaches while money is left: it is paid its
      share through `apply_payment`, its month of interest is counted once,
      and it gets one entry showing that share as the payment made. */
  lemma MinStepVisits(p: TowerPass, i: nat)
    requires i < |p.debts| && p.remaining > 0.0 && IsActive(p.debts[i])
    ensures var r := MinStep(p, i);
      var d := p.debts[i];
      var share := MinimumShare(d.minPayment, p.remaining);
      && r.debts[i] == TowerPay(d, share).0
      && r.remaining == p.remaining - share
      && r.record.interestThisMonth == p.record.interestThisMonth + MonthlyInterest(d)
      && r.record.debts == p.record.debts + [r.record.debts[|p.record.debts|]]
      && r.record.debts[|p.record.debts|].id == d.id
      && r.record.debts[|p.record.debts|].paymentMade == share
  {
  }

  /** The minimum pass over the first `k` debts of `order`. */
  function MinimumPass(p: TowerPass, order: seq<nat>, k: nat): (r: TowerPass)
    requires k <= |order| && Ordering.InRange(order, |p.debts|)
    ensures |r.debts| == |p.debts|
  {
    if k == 0 then p else MinStep(MinimumPass(p, order, k - 1), order[k - 1])
  }

  /** The minimum pass leaves the debts it has not reached alone. */
  lemma {:induction false} MinimumPassUntouched(p: TowerPass, order: seq<nat>, k: nat)
    requires k <= |order| && Ordering.InRange(order, |p.debts|)
    ensures var r := MinimumPass(p, order, k);
      forall j :: 0 <= j < |p.debts| && j !in order[..k] ==> r.debts[j] == p.debts[j]
  {
    if k > 0 {
      MinimumPassUntouched(p, order, k - 1);
      assert order[..k] == order[..k - 1] + [order[k - 1]];
    }
  }

  /** The minimum pass only lets debts evolve, adds the same interest and
      the same payments to the run totals and to the month's record, takes
      every payment out of the budget, never overdraws a budget that was
      not negative, and keeps the month's number and date. */
  lemma {:induction false} MinimumPassFacts(p: TowerPass, order: seq<nat>, k: nat)
    requires k <= |order| && Ordering.InRange(order, |p.debts|)
    ensures var r := MinimumPass(p, order, k);
      && AllEvolve(p.debts, r.debts)
      && r.totalInterest - r.record.interestThisMonth == p.totalInterest - p.record.interestThisMonth
      && r.totalPayments - r.record.paymentsThisMonth == p.totalPayments - p.record.paymentsThisMonth
      && r.record.paymentsThisMonth + r.remaining == p.record.paymentsThisMonth + p.remaining
      && (p.remaining >= 0.0 ==> r.remaining >= 0.0)
      && r.record.month == p.record.month && r.record.dateOffsetDays == p.record.dateOffsetDays
  {
    if k == 0 {
      AllEvolveRefl(p.debts);
    } else {
      MinimumPassFacts(p, order, k - 1);
      var q := MinimumPass(p, order, k - 1);
      var r := MinStep(q, order[k - 1]);
      AllEvolveIntro(q.debts, r.debts);
      AllEvolveTransitive(p.debts, q.debts, r.debts);
    }
  }

  /** Once the budget is spent the pass changes nothing more. */
  lemma {:induction false} MinimumPassStalled(p: TowerPass, order: seq<nat>, k: nat, n: nat)
    requires k <= n <= |order| && Ordering.InRange(order, |p.debts|)
    requires MinimumPass(p, order, k).remaining <= 0.0
    ensures MinimumPass(p, order, n) == MinimumPass(p, order, k)
    decreases n
  {
    if n > k {
      MinimumPassStalled(p, order, k, n - 1);
    }
  }

  /** The `break` of the minimum pass: once the budget is spent at the
      `k`-th debt of `order`, the pass ends there, and the debts after it
      get no interest counted and no payment that month. */
  lemma MinimumPassStops(p: TowerPass, order: seq<nat>, k: nat)
    requires k <= |order| && Ordering.InRange(order, |p.debts|)
    requires MinimumPass(p, order, k).remaining <= 0.0
    ensures var fin := MinimumPass(p, order, |order|);
      && fin == MinimumPass(p, order, k)
      && forall j :: 0 <= j < |p.debts| && j !in order[..k] ==> fin.debts[j] == p.debts[j]
  {
    MinimumPassStalled(p, order, k, |order|);
    MinimumPassUntouched(p, order, k);
  }

  /** The leftover budget paid to the debt at `t`: the debt takes it
      through `apply_payment`, the month's first entry for its id shows the
      new balance and status and the added payment, and its name is listed
      if that paid it off. No interest is counted. */
  function PayLeftover(p: TowerPass, t: nat): (r: TowerPass)
    requires t < |p.debts|
    ensures r.debts == p.debts[t := TowerPay(p.debts[t], p.remaining).0]
    ensures AllEvolve(p.debts, r.debts)
    ensures r.totalPayments == p.totalPayments + p.remaining
    ensures r.record.paymentsThisMonth == p.record.paymentsThisMonth + p.remaining
    ensures r.totalInterest == p.totalInterest && r.record.interestThisMonth == p.record.interestThisMonth
    ensures r.record.month == p.record.month && r.record.dateOffsetDays == p.record.dateOffsetDays
    ensures |r.record.debts| == |p.record.debts|
  {
    var d := p.debts[t];
    var paid := TowerPay(d, p.remaining).0;
    AllEvolvePay(p.debts, t, p.remaining);
    TowerPass(p.debts[t := paid], p.totalInterest, p.totalPayments + p.remaining, p.remaining,
              p.record.(debts := UpdateInfo(p.record.debts, d.id, paid.principal, p.remaining, paid.status),
                        paymentsThisMonth := p.record.paymentsThisMonth + p.remaining,
                        paidOffThisMonth := p.record.paidOffThisMonth + (if paid.status == PAID then [d.name] else [])))
  }

  /** Step 2: a positive leftover goes, whole, to the first active debt in
      strategy order, if there is one. */
  function Leftover(p: TowerPass, strategy: string): (r: TowerPass)
  {
    if p.remaining > 0.0 then
      var order := SortByStrategy(p.debts, strategy);
      if order == [] then p else PayLeftover(p, order[0])
    else
      p
  }

  /** Step 2 only lets debts evolve, counts no interest, adds the same
      payment to the run total and to the month's record, and that payment
      is the whole leftover when it is positive and a debt is active, and
      nothing otherwise; nothing changes when no debt is active. */
  lemma LeftoverFacts(p: TowerPass, strategy: string)
    ensures var r := Leftover(p, strategy);
      && |r.debts| == |p.debts|
      && AllEvolve(p.debts, r.debts)
      && r.totalInterest == p.totalInterest && r.record.interestThisMonth == p.record.interestThisMonth
      && r.totalPayments - r.record.paymentsThisMonth == p.totalPayments - p.record.paymentsThisMonth
      && r.record.paymentsThisMonth
           == p.record.paymentsThisMonth
              + (if p.remaining > 0.0 && GetActiveDebts(p.debts) != [] then p.remaining else 0.0)
      && (GetActiveDebts(p.debts) == [] ==> r == p)
      && r.record.month == p.record.month && r.record.dateOffsetDays == p.record.dateOffsetDays
      && |r.record.debts| == |p.record.debts|
  {
    SortByStrategyEmpty(p.debts, strategy);
    AllEvolveRefl(p.debts);
  }

  /** The debt that takes the leftover is charged a second month of
      interest by `apply_payment`, which the month's interest and the run's
      total interest do not count. */
  lemma LeftoverChargesInterestAgain(p: TowerPass, strategy: string)
    requires p.remaining > 0.0 && GetActiveDebts(p.debts) != []
    ensures SortByStrategy(p.debts, strategy) != []
    ensures var t := SortByStrategy(p.debts, strategy)[0];
      var r := Leftover(p, strategy);
      && IsActive(p.debts[t])
      && r.debts[t] == TowerPay(p.debts[t], p.remaining).0
      && r.totalInterest == p.totalInterest && r.record.interestThisMonth == p.record.interestThisMonth
  {
    SortByStrategyEmpty(p.debts, strategy);
  }

  /** The state between months: the working debts, the running totals and
      the months recorded so far. */
  datatype RunState = RunState(
    debts: seq<TowerDebtRec>,
    totalInterest: real,
    totalPayments: real,
    results: seq<MonthRecord>)

  function StartOfMonth(st: RunState, m: nat, available: real): TowerPass
  {
    TowerPass(st.debts, st.totalInterest, st.totalPayments, available, EmptyMonth(m))
  }

  /** Month `m` after the minimum pass over the debts sorted at its start. */
  function AfterMinimums(st: RunState, m: nat, strategy: string, available: real): (r: TowerPass)
    ensures |r.debts| == |st.debts|
  {
    var order := SortByStrategy(st.debts, strategy);
    MinimumPass(StartOfMonth(st, m, available), order, |order|)
  }

  /** The balance still owed on the active debts. */
  function ActiveBalance(ds: seq<TowerDebtRec>): real
    decreases |ds|
  {
    if ds == [] then 0.0
    else
      var last := ds[|ds| - 1];
      ActiveBalance(ds[..|ds| - 1]) + if IsActive(last) then last.principal else 0.0
  }

  /** The last month recorded, if any, shows what the active debts still owe. */
  predicate LastBalanceOwed(st: RunState)
  {
    |st.results| > 0 ==> st.results[|st.results| - 1].totalBalance == ActiveBalance(st.debts)
  }

  /** Month `m` (counting from 0) with the fixed budget `available`: the
      minimum pass, the leftover, then the month's total balance, which is
      what the active debts still owe, and its record is appended. */
  function Month(st: RunState, m: nat, strategy: string, available: real): (r: RunState)
    ensures |r.debts| == |st.debts|
    ensures AllEvolve(st.debts, r.debts)
    ensures |r.results| == |st.results| + 1 && r.results[..|st.results|] == st.results
    ensures r.results[|st.results|].month == m + 1 && r.results[|st.results|].dateOffsetDays == 30 * m
    ensures r.results[|st.results|].totalBalance == ActiveBalance(r.debts) && LastBalanceOwed(r)
    ensures r.totalInterest == st.totalInterest + r.results[|st.results|].interestThisMonth
    ensures r.totalPayments == st.totalPayments + r.results[|st.results|].paymentsThisMonth
  {
    var order := SortByStrategy(st.debts, strategy);
    var b := AfterMinimums(st, m, strategy, available);
    MinimumPassFacts(StartOfMonth(st, m, available), order, |order|);
    var c := Leftover(b, strategy);
    LeftoverFacts(b, strategy);
    AllEvolveTransitive(st.debts, b.debts, c.debts);
    var rec := c.record.(totalBalance := ActiveBalance(c.debts));
    assert (st.results + [rec])[..|st.results|] == st.results;
    RunState(c.debts, c.totalInterest, c.totalPayments, st.results + [rec])
  }

  /** A month put together from its stages. */
  lemma MonthFromSteps(st: RunState, m: nat, strategy: string, available: real, c: TowerPass)
    requires c == Leftover(AfterMinimums(st, m, strategy, available), strategy)
    ensures Month(st, m, strategy, available)
         == RunState(c.debts, c.totalInterest, c.totalPayments,
                     st.results + [c.record.(totalBalance := ActiveBalance(c.debts))])
  {
  }

  /** A month with a budget that is not negative pays at most the budget,
      and all of it when a debt is still active at the month's end. */
  lemma MonthPayments(st: RunState, m: nat, strategy: string, available: real)
    requires available >= 0.0
    ensures var r := Month(st, m, strategy, available);
      var paid := r.results[|st.results|].paymentsThisMonth;
      && paid <= available
      && (GetActiveDebts(r.debts) != [] ==> paid == available)
  {
    var order := SortByStrategy(st.debts, strategy);
    var b := AfterMinimums(st, m, strategy, available);
    MinimumPassFacts(StartOfMonth(st, m, available), order, |order|);
    LeftoverFacts(b, strategy);
  }

  /** The run from month `m` on: it stops at the horizon or at the first
      month that starts with no active debt. */
  function RunFrom(st: RunState, m: nat, horizon: int, strategy: string, available: real): (r: RunState)
    ensures |r.debts| == |st.debts|
    ensures AllEvolve(st.debts, r.debts)
    ensures |r.results| >= |st.results| && r.results[..|st.results|] == st.results
    ensures |r.results| == |st.results| ==> r == st
    ensures |r.results| > |st.results| ==> LastBalanceOwed(r)
    decreases horizon - m
  {
    if m >= horizon || GetActiveDebts(st.debts) == [] then
      assert st.results[..|st.results|] == st.results;
      AllEvolveRefl(st.debts);
      st
    else
      var next := Month(st, m, strategy, available);
      var r := RunFrom(next, m + 1, horizon, strategy, available);
      AllEvolveTransitive(st.debts, next.debts, r.debts);
      assert r.results[..|st.results|] == r.results[..|next.results|][..|st.results|];
      r
  }

  lemma RunFromUnfold(st: RunState, m: nat, horizon: int, strategy: string, available: real)
    requires m < horizon && GetActiveDebts(st.debts) != []
    ensures RunFrom(st, m, horizon, strategy, available)
         == RunFrom(Month(st, m, strategy, available), m + 1, horizon, strategy, available)
  {
  }

  /** The month loop stops at the horizon or once no debt is active. */
  lemma RunFromDone(st: RunState, m: nat, horizon: int, strategy: string, available: real)
    requires m >= horizon || GetActiveDebts(st.debts) == []
    ensures RunFrom(st, m, horizon, strategy, available) == st
  {
  }

  // ---------------------------------------------------------------------
  // Facts about whole runs
  // ---------------------------------------------------------------------

  /** Months are numbered from 1 and dated 30 days apart from day 0. */
  predicate Numbered(rs: seq<MonthRecord>)
  {
    forall k :: 0 <= k < |rs| ==> rs[k].month == k + 1 && rs[k].dateOffsetDays == 30 * k
  }

  /** The running totals are the sums over the months recorded. */
  predicate TotalsMatch(st: RunState)
  {
    st.totalInterest == Sum(MonthlyInterests(st.results)) && st.totalPayments == Sum(MonthlyPayments(st.results))
  }

  /** Every month pays at most the budget, every month but the last pays
      all of it, and so does the last one while a debt is still active. */
  predicate BudgetSpent(st: RunState, available: real)
  {
    && (forall k :: 0 <= k < |st.results| ==> st.results[k].paymentsThisMonth <= available)
    && (forall k :: 0 <= k < |st.results| - 1 ==> st.results[k].paymentsThisMonth == available)
    && (|st.results| > 0 && GetActiveDebts(st.debts) != [] ==>
          st.results[|st.results| - 1].paymentsThisMonth == available)
  }

  lemma AppendKeepsTotals(st: RunState, next: RunState)
    requires TotalsMatch(st)
    requires |next.results| == |st.results| + 1 && next.results[..|st.results|] == st.results
    requires next.totalInterest == st.totalInterest + next.results[|st.results|].interestThisMonth
    requires next.totalPayments == st.totalPayments + next.results[|st.results|].paymentsThisMonth
    ensures TotalsMatch(next)
  {
    SumsOfAppendedMonth(st.results, next.results);
  }

  lemma AppendKeepsNumbered(rs: seq<MonthRecord>, next: seq<MonthRecord>)
    requires Numbered(rs)
    requires |next| == |rs| + 1 && next[..|rs|] == rs
    requires next[|rs|].month == |rs| + 1 && next[|rs|].dateOffsetDays == 30 * |rs|
    ensures Numbered(next)
  {
    forall k | 0 <= k < |rs| ensures next[k] == rs[k] {
      assert next[..|rs|][k] == next[k];
    }
  }

  /** A month that follows a month with a debt still active keeps the
      budget spent. */
  lemma MonthKeepsBudgetSpent(st: RunState, m: nat, strategy: string, available: real)
    requires available >= 0.0 && BudgetSpent(st, available) && GetActiveDebts(st.debts) != []
    ensures BudgetSpent(Month(st, m, strategy, available), available)
  {
    var next := Month(st, m, strategy, available);
    MonthPayments(st, m, strategy, available);
    forall k | 0 <= k < |st.results| ensures next.results[k] == st.results[k] {
      assert next.results[..|st.results|][k] == next.results[k];
    }
  }

  /** A run from month `m` adds months only up to the horizon and stops
      early only once no debt is active. */
  lemma {:induction false} RunFromStops(st: RunState, m: nat, horizon: int, strategy: string, available: real)
    requires |st.results| == m
    ensures var fin := RunFrom(st, m, horizon, strategy, available);
      && (|fin.results| > m ==> |fin.results| <= horizon)
      && (|fin.results| < horizon ==> GetActiveDebts(fin.debts) == [])
    decreases horizon - m
  {
    if m < horizon && GetActiveDebts(st.debts) != [] {
      var next := Month(st, m, strategy, available);
      RunFromStops(next, m + 1, horizon, strategy, available);
      RunFromUnfold(st, m, horizon, strategy, available);
    }
  }

  lemma {:induction false} RunFromNumbered(st: RunState, m: nat, horizon: int, strategy: string, available: real)
    requires |st.results| == m && Numbered(st.results)
    ensures Numbered(RunFrom(st, m, horizon, strategy, available).results)
    decreases horizon - m
  {
    if m < horizon && GetActiveDebts(st.debts) != [] {
      var next := Month(st, m, strategy, available);
      AppendKeepsNumbered(st.results, next.results);
      RunFromNumbered(next, m + 1, horizon, strategy, available);
      RunFromUnfold(st, m, horizon, strategy, available);
    }
  }

  lemma {:induction false} RunFromTotals(st: RunState, m: nat, horizon: int, strategy: string, available: real)
    requires TotalsMatch(st)
    ensures TotalsMatch(RunFrom(st, m, horizon, strategy, available))
    decreases horizon - m
  {
    if m < horizon && GetActiveDebts(st.debts) != [] {
      var next := Month(st, m, strategy, available);
      AppendKeepsTotals(st, next);
      RunFromTotals(next, m + 1, horizon, strategy, available);
      RunFromUnfold(st, m, horizon, strategy, available);
    }
  }

  lemma {:induction false} RunFromBudget(st: RunState, m: nat, horizon: int, strategy: string, available: real)
    requires available >= 0.0 && BudgetSpent(st, available)
    ensures BudgetSpent(RunFrom(st, m, horizon, strategy, available), available)
    decreases horizon - m
  {
    if m < horizon && GetActiveDebts(st.debts) != [] {
      var next := Month(st, m, strategy, available);
      MonthKeepsBudgetSpent(st, m, strategy, available);
      RunFromBudget(next, m + 1, horizon, strategy, available);
      RunFromUnfold(st, m, horizon, strategy, available);
    }
  }

  // ---------------------------------------------------------------------
  // The result of a run
  // ---------------------------------------------------------------------

  datatype TowerSummary = TowerSummary(
    monthsToZero: int,
    totalInterestPaid: real,
    totalPaymentsMade: real,
    finalDebts: seq<FinalDebt>)

  datatype TowerResult = TowerResult(
    results: seq<MonthRecord>,
    summary: TowerSummary)

  function FinalDebtOf(d: TowerDebtRec): FinalDebt
  {
    FinalDebt(d.id, d.name, d.principal, d.totalInterestPaid, d.monthsPaid, d.status)
  }

  function FinalDebts(ds: seq<TowerDebtRec>): (r: seq<FinalDebt>)
    ensures |r| == |ds| && forall k :: 0 <= k < |ds| ==> r[k] == FinalDebtOf(ds[k])
  {
    seq(|ds|, k requires 0 <= k < |ds| => FinalDebtOf(ds[k]))
  }

  function InitialState(debts: seq<TowerDebtRec>): RunState
  {
    RunState(debts, 0.0, 0.0, [])
  }

  /** The monthly budget of a run: the payment tower built from every
      debt's minimum, whatever its status, and the extra. */
  function Available(debts: seq<TowerDebtRec>, extraPayment: real): real
  {
    GetAvailablePayment(NewPaymentTower(Sum(MinPayments(debts)), extraPayment))
  }

  /** The answer of a simulation read off the final state of its month loop. */
  function Summarize(fin: RunState): TowerResult
  {
    TowerResult(fin.results,
                TowerSummary(|fin.results|, fin.totalInterest, fin.totalPayments, FinalDebts(fin.debts)))
  }

  /** `simulate_avalanche` / `simulate_snowball` on debt values. */
  function Simulation(debts: seq<TowerDebtRec>, extraPayment: real, strategy: string, maxMonths: int): TowerResult
  {
    Summarize(RunFrom(InitialState(debts), 0, maxMonths, strategy, Available(debts, extraPayment)))
  }

  /** A run reached by the month loop determines the simulation's answer. */
  lemma SimulationOfRun(debts: seq<TowerDebtRec>, extraPayment: real, strategy: string, maxMonths: int,
                        fin: RunState)
    requires fin == RunFrom(InitialState(debts), 0, maxMonths, strategy, Available(debts, extraPayment))
    ensures Simulation(debts, extraPayment, strategy, maxMonths) == Summarize(fin)
  {
  }

  /** What the simulations promise about the months they report: at most
      `maxMonths` of them, none when no debt starts active, fewer only once
      every debt is retired, numbered and dated in order; months to zero is
      their number and the totals are the sums over them. */
  lemma SimulationMonths(debts: seq<TowerDebtRec>, extraPayment: real, strategy: string, maxMonths: int)
    ensures var res := Simulation(debts, extraPayment, strategy, maxMonths);
      var n := |res.results|;
      && (n > 0 ==> n <= maxMonths)
      && (GetActiveDebts(debts) == [] ==> n == 0)
      && (n < maxMonths ==>
            forall j :: 0 <= j < |res.summary.finalDebts| ==> res.summary.finalDebts[j].status != ACTIVE)
      && Numbered(res.results)
      && res.summary.monthsToZero == n
      && res.summary.totalInterestPaid == Sum(MonthlyInterests(res.results))
      && res.summary.totalPaymentsMade == Sum(MonthlyPayments(res.results))
  {
    var available := Available(debts, extraPayment);
    var st := InitialState(debts);
    assert MonthlyInterests([]) == [] && MonthlyPayments([]) == [];
    RunFromStops(st, 0, maxMonths, strategy, available);
    RunFromNumbered(st, 0, maxMonths, strategy, available);
    RunFromTotals(st, 0, maxMonths, strategy, available);
  }

  /** The payment tower's budget, when it is not negative, bounds what
      every month pays, and every month but the last pays all of it. */
  lemma SimulationBudget(debts: seq<TowerDebtRec>, extraPayment: real, strategy: string, maxMonths: int)
    requires Available(debts, extraPayment) >= 0.0
    ensures var res := Simulation(debts, extraPayment, strategy, maxMonths);
      var available := Sum(MinPayments(debts)) + extraPayment;
      && (forall k :: 0 <= k < |res.results| ==> res.results[k].paymentsThisMonth <= available)
      && (forall k :: 0 <= k < |res.results| - 1 ==> res.results[k].paymentsThisMonth == available)
  {
    RunFromBudget(InitialState(debts), 0, maxMonths, strategy, Available(debts, extraPayment));
  }

  /** The final debts they report: one per debt, each keeping its id and
      name; one that started retired is reported as it was; one that
      started active ends active or paid, at zero if paid, and not below
      zero if it started at a balance and a rate that were not negative. */
  lemma SimulationFinalDebts(debts: seq<TowerDebtRec>, extraPayment: real, strategy: string, maxMonths: int)
    ensures var res := Simulation(debts, extraPayment, strategy, maxMonths);
      var fds := res.summary.finalDebts;
      && |fds| == |debts|
      && (forall j :: 0 <= j < |debts| ==>
            && fds[j].id == debts[j].id && fds[j].name == debts[j].name
            && (!IsActive(debts[j]) ==> fds[j].finalBalance == debts[j].principal && fds[j].status == debts[j].status)
            && (IsActive(debts[j]) ==> fds[j].status == ACTIVE || fds[j].status == PAID)
            && (fds[j].status == PAID && IsActive(debts[j]) ==> fds[j].finalBalance == 0.0)
            && (debts[j].principal >= 0.0 && debts[j].apr >= 0.0 ==> fds[j].finalBalance >= 0.0))
  {
    var fin := RunFrom(InitialState(debts), 0, maxMonths, strategy, Available(debts, extraPayment));
    forall j | 0 <= j < |debts| ensures Evolves(debts[j], fin.debts[j]) {
      AllEvolveAt(debts, fin.debts, j);
    }
  }

  /** Whichever order the months take, the balance reported for a month
      is what the active debts owe at its end. */
  lemma SimulationBalance(debts: seq<TowerDebtRec>, extraPayment: real, strategy: string, maxMonths: int)
    ensures var fin := RunFrom(InitialState(debts), 0, maxMonths, strategy, Available(debts, extraPayment));
      var res := Simulation(debts, extraPayment, strategy, maxMonths);
      |res.results| > 0 ==> res.results[|res.results| - 1].totalBalance == ActiveBalance(fin.debts)
  {
    var fin := RunFrom(InitialState(debts), 0, maxMonths, strategy, Available(debts, extraPayment));
    assert Simulation(debts, extraPayment, strategy, maxMonths).results == fin.results;
    assert |fin.results| > 0 ==> LastBalanceOwed(fin);
  }

  /** The default horizon of every simulation the engine starts itself. */
  const DEFAULT_MAX_MONTHS: int := 600

  datatype TowerImpact = TowerImpact(
    base: TowerResult,
    enhanced: TowerResult,
    monthsSaved: int,
    interestSaved: real,
    roi: real)

  /** The impact of the additional extra: the months and interest the
      enhanced run saves over the base run, and the interest saved per unit
      of additional extra, or 0 when the additional extra is not positive. */
  function ImpactOfRuns(base: TowerResult, enhanced: TowerResult, additionalExtra: real): (r: TowerImpact)
    ensures r.base == base && r.enhanced == enhanced
    ensures r.monthsSaved + enhanced.summary.monthsToZero == base.summary.monthsToZero
    ensures r.interestSaved + enhanced.summary.totalInterestPaid == base.summary.totalInterestPaid
    ensures additionalExtra <= 0.0 ==> r.roi == 0.0
    ensures additionalExtra > 0.0 ==> r.roi * additionalExtra == r.interestSaved
  {
    var monthsSaved := base.summary.monthsToZero - enhanced.summary.monthsToZero;
    var interestSaved := base.summary.totalInterestPaid - enhanced.summary.totalInterestPaid;
    TowerImpact(base, enhanced, monthsSaved, interestSaved,
                if additionalExtra > 0.0 then interestSaved / additionalExtra else 0.0)
  }

  /** The strategy the impact runs: avalanche when asked for, snowball for
      any other name. */
  function ImpactStrategy(strategy: string): (r: string)
    ensures r == "avalanche" <==> strategy == "avalanche"
    ensures r == "avalanche" || r == "snowball"
  {
    if strategy == "avalanche" then "avalanche" else "snowball"
  }

  /** `calculate_extra_payment_impact` on the engine's debts: the base run
      and the enhanced run at the default horizon, and their impact. */
  function ExtraImpact(debts: seq<TowerDebtRec>, baseExtra: real, additionalExtra: real, strategy: string)
    : TowerImpact
  {
    var s := ImpactStrategy(strategy);
    ImpactOfRuns(Simulation(debts, baseExtra, s, DEFAULT_MAX_MONTHS),
                 Simulation(debts, TotalExtra(baseExtra, additionalExtra), s, DEFAULT_MAX_MONTHS),
                 additionalExtra)
  }

  /** Both runs of an impact report at most the default horizon of months
      and months saved is their difference. */
  lemma ExtraImpactMonths(debts: seq<TowerDebtRec>, baseExtra: real, additionalExtra: real, strategy: string)
    ensures var r := ExtraImpact(debts, baseExtra, additionalExtra, strategy);
      && 0 <= r.base.summary.monthsToZero <= DEFAULT_MAX_MONTHS
      && 0 <= r.enhanced.summary.monthsToZero <= DEFAULT_MAX_MONTHS
      && -DEFAULT_MAX_MONTHS <= r.monthsSaved <= DEFAULT_MAX_MONTHS
  {
    var s := ImpactStrategy(strategy);
    SimulationMonths(debts, baseExtra, s, DEFAULT_MAX_MONTHS);
    SimulationMonths(debts, TotalExtra(baseExtra, additionalExtra), s, DEFAULT_MAX_MONTHS);
  }

  // ---------------------------------------------------------------------
  // The TwoTowerDebt object
  // ---------------------------------------------------------------------

  class TwoTowerDebt {
    const id: int
    const name: string
    const apr: real
    const minPayment: real
    var principal: real
    var status: string
    var monthsPaid: int
    var totalInterestPaid: real

    function Snap(): TowerDebtRec
      reads this
    {
      TowerDebtRec(id, name, principal, apr, minPayment, status, monthsPaid, totalInterestPaid)
    }

    constructor (id: int, name: string, principal: real, apr: real, minPayment: real)
      ensures Snap() == NewTowerDebt(id, name, principal, apr, minPayment)
    {
      this.id := id;
      this.name := name;
      this.principal := principal;
      this.apr := apr;
      this.minPayment := minPayment;
      this.status := ACTIVE;
      this.monthsPaid := 0;
      this.totalInterestPaid := 0.0;
    }

    /** A copy with every field of `d`, as `copy.deepcopy` makes. */
    constructor Copy(d: TwoTowerDebt)
      ensures Snap() == d.Snap()
    {
      this.id := d.id;
      this.name := d.name;
      this.principal := d.principal;
      this.apr := d.apr;
      this.minPayment := d.minPayment;
      this.status := d.status;
      this.monthsPaid := d.monthsPaid;
      this.totalInterestPaid := d.totalInterestPaid;
    }

    function CalculateMonthlyInterest(): real
      reads this
    {
      MonthlyInterest(Snap())
    }

    method ApplyPayment(payment: real) returns (r: TowerPaymentResult)
      modifies this
      ensures (Snap(), r) == TowerPay(old(Snap()), payment)
    {
      if status != ACTIVE {
        return TowerPaymentResult(0.0, 0.0, principal);
      }
      var monthlyInterest := CalculateMonthlyInterest();
      principal := principal + monthlyInterest;
      var interestPayment, principalPayment;
      if payment >= principal {
        interestPayment := monthlyInterest;
        principalPayment := principal - monthlyInterest;
        principal := 0.0;
        status := PAID;
      } else {
        interestPayment := if payment < monthlyInterest then payment else monthlyInterest;
        principalPayment := if payment - monthlyInterest > 0.0 then payment - monthlyInterest else 0.0;
        principal := principal - principalPayment;
      }
      totalInterestPaid := totalInterestPaid + interestPayment;
      monthsPaid := monthsPaid + 1;
      r := TowerPaymentResult(principalPayment, interestPayment, principal);
    }
  }

  function Snapshots(ws: seq<TwoTowerDebt>): (r: seq<TowerDebtRec>)
    reads ws
    ensures |r| == |ws|
    ensures forall k :: 0 <= k < |ws| ==> r[k] == ws[k].Snap()
  {
    seq(|ws|, k requires 0 <= k < |ws| reads ws => ws[k].Snap())
  }

  /** The debt objects hold the debt values, one by one. */
  predicate Mirrors(ws: seq<TwoTowerDebt>, ds: seq<TowerDebtRec>)
    reads ws
  {
    |ws| == |ds| && forall k :: 0 <= k < |ws| ==> ws[k].Snap() == ds[k]
  }

  lemma MirrorsSnapshots(ws: seq<TwoTowerDebt>, ds: seq<TowerDebtRec>)
    requires Mirrors(ws, ds)
    ensures Snapshots(ws) == ds
  {
  }

  // ---------------------------------------------------------------------
  // The month loop on debt objects
  // ---------------------------------------------------------------------

  /** `[copy.deepcopy(debt) for debt in self.debts]`: fresh objects holding
      the same values. */
  method CopyDebts(debts: seq<TwoTowerDebt>) returns (working: seq<TwoTowerDebt>)
    ensures |working| == |debts|
    ensures forall k :: 0 <= k < |working| ==> fresh(working[k])
    ensures AllDistinct(working)
    ensures Mirrors(working, old(Snapshots(debts)))
  {
    working := [];
    var i := 0;
    while i < |debts|
      invariant 0 <= i <= |debts| && |working| == i
      invariant forall k :: 0 <= k < i ==> fresh(working[k])
      invariant AllDistinct(working)
      invariant forall k :: 0 <= k < i ==> working[k].Snap() == debts[k].Snap()
    {
      var copy := new TwoTowerDebt.Copy(debts[i]);
      working := working + [copy];
      i := i + 1;
    }
  }

  /** The body of the minimum pass for the debt object at `i`, reached while
      some of the budget is left. */
  method MinimumAt(working: seq<TwoTowerDebt>, i: nat, p: TowerPass) returns (q: TowerPass)
    requires i < |working| && AllDistinct(working) && Mirrors(working, p.debts)
    requires p.remaining > 0.0
    modifies working[i]
    ensures q == MinStep(p, i)
    ensures Mirrors(working, q.debts)
  {
    var debt := working[i];
    if debt.status != ACTIVE {
      return p;
    }
    var monthlyInterest := debt.CalculateMonthlyInterest();
    var paymentAmount, remainingPayment;
    if p.remaining >= debt.minPayment {
      paymentAmount := debt.minPayment;
      remainingPayment := p.remaining - debt.minPayment;
    } else {
      paymentAmount := p.remaining;
      remainingPayment := 0.0;
    }
    var paymentResult := debt.ApplyPayment(paymentAmount);
    var info := DebtInfo(debt.id, debt.name, debt.principal, paymentResult.interestPayment, paymentAmount,
                         debt.status);
    var record := p.record.(interestThisMonth := p.record.interestThisMonth + monthlyInterest,
                            paymentsThisMonth := p.record.paymentsThisMonth + paymentAmount,
                            debts := p.record.debts + [info]);
    if debt.status == PAID {
      record := record.(paidOffThisMonth := record.paidOffThisMonth + [debt.name]);
    }
    q := TowerPass(p.debts[i := debt.Snap()], p.totalInterest + monthlyInterest, p.totalPayments + paymentAmount,
                   remainingPayment, record);
  }

  /** Step 1: the minimum pass over the sorted debt objects, left at the
      first debt found with the budget spent. */
  method ApplyMinimums(working: seq<TwoTowerDebt>, order: seq<nat>, p: TowerPass) returns (q: TowerPass)
    requires AllDistinct(working) && Mirrors(working, p.debts) && Ordering.InRange(order, |working|)
    modifies working
    ensures q == MinimumPass(p, order, |order|)
    ensures Mirrors(working, q.debts)
  {
    q := p;
    var k := 0;
    while k < |order|
      invariant 0 <= k <= |order|
      invariant q == MinimumPass(p, order, k)
      invariant Mirrors(working, q.debts)
    {
      if q.remaining <= 0.0 {
        MinimumPassStops(p, order, k);
        break;
      }
      q := MinimumAt(working, order[k], q);
      k := k + 1;
    }
  }

  /** The leftover paid to the debt object at `t`, with the search loop
      that updates the month's entry for it. */
  method PayLeftoverTo(working: seq<TwoTowerDebt>, t: nat, p: TowerPass) returns (q: TowerPass)
    requires t < |working| && AllDistinct(working) && Mirrors(working, p.debts)
    modifies working[t]
    ensures q == PayLeftover(p, t)
    ensures Mirrors(working, q.debts)
  {
    var targetDebt := working[t];
    var remainingPayment := p.remaining;
    var extraResult := targetDebt.ApplyPayment(remainingPayment);
    var infos := UpdateDebtInfo(p.record.debts, targetDebt.id, targetDebt.principal, remainingPayment,
                                targetDebt.status);
    var record := p.record.(debts := infos, paymentsThisMonth := p.record.paymentsThisMonth + remainingPayment);
    if targetDebt.status == PAID {
      record := record.(paidOffThisMonth := record.paidOffThisMonth + [targetDebt.name]);
    }
    q := TowerPass(p.debts[t := targetDebt.Snap()], p.totalInterest, p.totalPayments + remainingPayment,
                   remainingPayment, record);
  }

  /** Step 2 on the debt objects: a positive leftover to the first active
      debt in strategy order, sorted again on the balances after step 1. */
  method ApplyLeftover(working: seq<TwoTowerDebt>, strategy: string, p: TowerPass) returns (q: TowerPass)
    requires AllDistinct(working) && Mirrors(working, p.debts)
    modifies working
    ensures q == Leftover(p, strategy)
    ensures Mirrors(working, q.debts)
  {
    if p.remaining > 0.0 {
      MirrorsSnapshots(working, p.debts);
      SortByStrategyEmpty(p.debts, strategy);
      var remainingDebts := GetActiveDebts(Snapshots(working));
      if remainingDebts != [] {
        var sortedDebts := SortByStrategy(Snapshots(working), strategy);
        q := PayLeftoverTo(working, sortedDebts[0], p);
        return;
      }
    }
    q := p;
  }

  /** One month of the run on debt objects holding `cur.debts`: the run
      from month `m` on is the run from the next month on. */
  method RunMonth(working: seq<TwoTowerDebt>, ghost cur: RunState, m: nat, horizon: int, strategy: string,
                  tower: PaymentTower, totalInterest: real, totalPayments: real, results: seq<MonthRecord>,
                  ghost target: RunState)
    returns (st: RunState)
    requires AllDistinct(working) && Mirrors(working, cur.debts)
    requires cur.totalInterest == totalInterest && cur.totalPayments == totalPayments && cur.results == results
    requires m < horizon && GetActiveDebts(cur.debts) != []
    requires RunFrom(cur, m, horizon, strategy, GetAvailablePayment(tower)) == target
    modifies working
    ensures Mirrors(working, st.debts) && |st.results| == |results| + 1
    ensures RunFrom(st, m + 1, horizon, strategy, GetAvailablePayment(tower)) == target
  {
    MirrorsSnapshots(working, cur.debts);
    var availablePayment := GetAvailablePayment(tower);
    var sortedDebts := SortByStrategy(Snapshots(working), strategy);
    var start := TowerPass(Snapshots(working), totalInterest, totalPayments, availablePayment, EmptyMonth(m));
    var afterMinimums := ApplyMinimums(working, sortedDebts, start);
    var c := ApplyLeftover(working, strategy, afterMinimums);
    MirrorsSnapshots(working, c.debts);
    var monthData := c.record.(totalBalance := ActiveBalance(Snapshots(working)));
    st := RunState(c.debts, c.totalInterest, c.totalPayments, results + [monthData]);
    MonthFromSteps(cur, m, strategy, availablePayment, c);
    RunFromUnfold(cur, m, horizon, strategy, availablePayment);
  }

  /** The month loop `for month in range(1, max_months + 1)` on debt
      objects holding `ds0`, with the budget of `tower`. */
  method RunMonths(working: seq<TwoTowerDebt>, ghost ds0: seq<TowerDebtRec>, maxMonths: int, strategy: string,
                   tower: PaymentTower)
    returns (fin: RunState)
    requires AllDistinct(working) && Mirrors(working, ds0)
    modifies working
    ensures fin == RunFrom(InitialState(ds0), 0, maxMonths, strategy, GetAvailablePayment(tower))
    ensures Mirrors(working, fin.debts)
  {
    var totalInterest, totalPayments := 0.0, 0.0;
    var results: seq<MonthRecord> := [];
    ghost var available := GetAvailablePayment(tower);
    ghost var cur := InitialState(ds0);
    ghost var target := RunFrom(cur, 0, maxMonths, strategy, available);
    var month := 0;
    while month < maxMonths
      invariant 0 <= month
      invariant cur.totalInterest == totalInterest && cur.totalPayments == totalPayments && cur.results == results
      invariant Mirrors(working, cur.debts)
      invariant RunFrom(cur, month, maxMonths, strategy, available) == target
      decreases maxMonths - month
    {
      MirrorsSnapshots(working, cur.debts);
      var activeDebts := GetActiveDebts(Snapshots(working));
      if activeDebts == [] {
        break;
      }
      var next := RunMonth(working, cur, month, maxMonths, strategy, tower, totalInterest, totalPayments,
                           results, target);
      totalInterest, totalPayments, results := next.totalInterest, next.totalPayments, next.results;
      cur := next;
      month := month + 1;
    }
    MirrorsSnapshots(working, cur.debts);
    fin := RunState(Snapshots(working), totalInterest, totalPayments, results);
    RunFromDone(fin, month, maxMonths, strategy, available);
  }

  /** The `final_debts` list: one entry per debt object, in list order. */
  method ReportFinalDebts(working: seq<TwoTowerDebt>, ghost ds: seq<TowerDebtRec>) returns (r: seq<FinalDebt>)
    requires Mirrors(working, ds)
    ensures r == FinalDebts(ds)
  {
    r := [];
    var i := 0;
    while i < |working|
      invariant 0 <= i <= |working|
      invariant r == FinalDebts(ds[..i])
    {
      var debt := working[i];
      assert ds[..i + 1] == ds[..i] + [ds[i]];
      r := r + [FinalDebt(debt.id, debt.name, debt.principal, debt.totalInterestPaid, debt.monthsPaid, debt.status)];
      i := i + 1;
    }
    assert ds[..i] == ds;
  }

  /** One row of the engine's input: the debt's terms. */
  datatype DebtRow = DebtRow(id: int, name: string, principal: real, apr: real, minPayment: real)

  function NewDebts(rows: seq<DebtRow>): (r: seq<TowerDebtRec>)
    ensures |r| == |rows|
    ensures forall k :: 0 <= k < |rows| ==>
      r[k] == NewTowerDebt(rows[k].id, rows[k].name, rows[k].principal, rows[k].apr, rows[k].minPayment)
  {
    seq(|rows|, k requires 0 <= k < |rows| =>
      NewTowerDebt(rows[k].id, rows[k].name, rows[k].principal, rows[k].apr, rows[k].minPayment))
  }

  /** Every debt the engine builds starts active: its budget is every
      minimum plus the extra, and no debt is left out of the first month. */
  lemma NewDebtsAllActive(rows: seq<DebtRow>, extraPayment: real)
    ensures forall j :: 0 <= j < |rows| ==> IsActive(NewDebts(rows)[j])
    ensures Available(NewDebts(rows), extraPayment) == GetTotalMinPayments(NewDebts(rows)) + extraPayment
  {
    TotalMinPaymentsAllActive(NewDebts(rows));
  }

  /** The engine: the debts it builds from its input rows. */
  class TwoTowerSimulationEngine {
    const debts: seq<TwoTowerDebt>

    constructor (rows: seq<DebtRow>)
      ensures Snapshots(debts) == NewDebts(rows)
    {
      var built: seq<TwoTowerDebt> := [];
      var i := 0;
      while i < |rows|
        invariant 0 <= i <= |rows| && |built| == i
        invariant forall k :: 0 <= k < i ==>
          built[k].Snap() == NewTowerDebt(rows[k].id, rows[k].name, rows[k].principal, rows[k].apr,
                                          rows[k].minPayment)
      {
        var row := rows[i];
        var debt := new TwoTowerDebt(row.id, row.name, row.principal, row.apr, row.minPayment);
        built := built + [debt];
        i := i + 1;
      }
      debts := built;
    }

    /** The body `simulate_avalanche` and `simulate_snowball` share: the
        payment tower fixes every minimum plus the extra as the monthly
        budget, copies of the debts are run month by month, then
        summarised; the engine's own debts are left as they were. */
    method SimulateWith(extraPayment: real, maxMonths: int, strategy: string) returns (r: TowerResult)
      ensures r == Simulation(old(Snapshots(debts)), extraPayment, strategy, maxMonths)
    {
      ghost var given := Snapshots(debts);
      var working := CopyDebts(debts);
      MirrorsSnapshots(working, given);
      var totalMinPayments := Sum(MinPayments(Snapshots(working)));
      var paymentTower := NewPaymentTower(totalMinPayments, extraPayment);
      var fin := RunMonths(working, given, maxMonths, strategy, paymentTower);
      SimulationOfRun(given, extraPayment, strategy, maxMonths, fin);
      var finalDebts := ReportFinalDebts(working, fin.debts);
      r := TowerResult(fin.results, TowerSummary(|fin.results|, fin.totalInterest, fin.totalPayments, finalDebts));
    }

    /** `simulate_avalanche`: highest rate first. */
    method SimulateAvalanche(extraPayment: real, maxMonths: int) returns (r: TowerResult)
      ensures r == Simulation(Snapshots(debts), extraPayment, "avalanche", maxMonths)
    {
      r := SimulateWith(extraPayment, maxMonths, "avalanche");
    }

    /** `simulate_snowball`: smallest balance first. */
    method SimulateSnowball(extraPayment: real, maxMonths: int) returns (r: TowerResult)
      ensures r == Simulation(Snapshots(debts), extraPayment, "snowball", maxMonths)
    {
      r := SimulateWith(extraPayment, maxMonths, "snowball");
    }

    /** `calculate_extra_payment_impact`: avalanche when asked for and
        snowball otherwise, run with the base extra and with the base plus
        the additional extra at the default horizon. */
    method CalculateExtraPaymentImpact(baseExtra: real, additionalExtra: real, strategy: string)
      returns (r: TowerImpact)
      ensures r == ExtraImpact(Snapshots(debts), baseExtra, additionalExtra, strategy)
    {
      var baseSimulation: TowerResult;
      if strategy == "avalanche" {
        baseSimulation := SimulateAvalanche(baseExtra, DEFAULT_MAX_MONTHS);
      } else {
        baseSimulation := SimulateSnowball(baseExtra, DEFAULT_MAX_MONTHS);
      }
      var totalExtra := TotalExtra(baseExtra, additionalExtra);
      var enhancedSimulation: TowerResult;
      if strategy == "avalanche" {
        enhancedSimulation := SimulateAvalanche(totalExtra, DEFAULT_MAX_MONTHS);
      } else {
        enhancedSimulation := SimulateSnowball(totalExtra, DEFAULT_MAX_MONTHS);
      }
      r := ImpactOfRuns(baseSimulation, enhancedSimulation, additionalExtra);
    }
  }
}
