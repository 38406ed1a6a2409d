/** The simple simulation engine: a `SimpleDebt` whose interest accrual and
    payment are separate operations, and a `SimpleSimulationEngine` holding a
    list of debts that it runs month by month under avalanche or snowball,
    reallocating every payment freed by a payoff, or under the baseline that
    never reallocates.

    Each month works on deep copies of the engine's debts, in this order:
    interest on every active debt, the minimum payment on every active debt,
    then the rest of the monthly budget. The mutable operations are proved
    against specification functions over value records (`SimpleDebtRec`,
    `Pass`, `RunState`); the lemmas state what a month and a run guarantee. */
module SimpleSimulationEngine {
  import opened Common
  import Ordering

  // ---------------------------------------------------------------------
  // A debt as a value
  // ---------------------------------------------------------------------

  datatype SimpleDebtRec = SimpleDebtRec(
    id: int,
    name: string,
    principal: real,
    apr: real,
    minPayment: real,
    status: string,
    monthsPaid: int,
    totalInterestPaid: real)

  predicate IsActive(d: SimpleDebtRec)
  {
    d.status == ACTIVE
  }

  predicate IsInactive(d: SimpleDebtRec)
  {
    d.status != ACTIVE
  }

  /** A new debt is active and has paid nothing yet. */
  function NewSimpleDebt(id: int, name: string, principal: real, apr: real, minPayment: real): SimpleDebtRec
  {
    SimpleDebtRec(id, name, principal, apr, minPayment, ACTIVE, 0, 0.0)
  }

  /** One month of interest at the annual rate `apr`. */
  function MonthlyInterest(d: SimpleDebtRec): (r: real)
    ensures 12.0 * r == d.principal * d.apr
    ensures d.principal >= 0.0 && d.apr >= 0.0 ==> r >= 0.0
  {
    d.principal * (d.apr / 12.0)
  }

  /** The home loan of the repository's test data accrues R 5 370.548 in its first month. */
  lemma HomeLoanFirstMonthInterest()
    ensures MonthlyInterest(NewSimpleDebt(1, "Home Loan", 672720.0, 0.0958, 6500.0)) == 5370.548
  {
  }

  /** The terms a run never changes. */
  predicate SameTerms(a: SimpleDebtRec, b: SimpleDebtRec)
  {
    a.id == b.id && a.name == b.name && a.apr == b.apr && a.minPayment == b.minPayment
  }

  /** How a debt may change during a run: not at all, or, if it was active,
      only its balance and history, ending active or paid, and at zero once
      paid. */
  predicate Evolves(d0: SimpleDebtRec, d1: SimpleDebtRec)
  {
    || d1 == d0
    || (&& IsActive(d0) && SameTerms(d0, d1)
        && (d1.status == ACTIVE || d1.status == PAID)
        && (d1.status == PAID ==> d1.principal == 0.0))
  }

  lemma EvolvesTransitive(a: SimpleDebtRec, b: SimpleDebtRec, c: SimpleDebtRec)
    requires Evolves(a, b) && Evolves(b, c)
    ensures Evolves(a, c)
  {
  }

  /** `Evolves`, position by position. It is written recursively so that
      the verifier unfolds it only where a proof asks for it. */
  predicate AllEvolve(a: seq<SimpleDebtRec>, b: seq<SimpleDebtRec>)
    decreases |a|
  {
    && |a| == |b|
    && (a == [] || (AllEvolve(a[..|a| - 1], b[..|b| - 1]) && Evolves(a[|a| - 1], b[|b| - 1])))
  }

  lemma {:induction false} AllEvolveAt(a: seq<SimpleDebtRec>, b: seq<SimpleDebtRec>, j: nat)
    requires AllEvolve(a, b) && j < |a|
    ensures |b| == |a| && Evolves(a[j], b[j])
    decreases |a|
  {
    var n := |a| - 1;
    if j < n {
      AllEvolveAt(a[..n], b[..n], j);
    }
  }

  lemma {:induction false} AllEvolveIntro(a: seq<SimpleDebtRec>, b: seq<SimpleDebtRec>)
    requires |a| == |b| && forall j :: 0 <= j < |a| ==> Evolves(a[j], b[j])
    ensures AllEvolve(a, b)
    decreases |a|
  {
    if a != [] {
      var n := |a| - 1;
      AllEvolveIntro(a[..n], b[..n]);
    }
  }

  lemma AllEvolveRefl(a: seq<SimpleDebtRec>)
    ensures AllEvolve(a, a)
  {
    AllEvolveIntro(a, a);
  }

  /** A change at one position that evolves the debt there. */
  lemma AllEvolveUpdate(a: seq<SimpleDebtRec>, t: nat, d: SimpleDebtRec)
    requires t < |a| && Evolves(a[t], d)
    ensures AllEvolve(a, a[t := d])
  {
    AllEvolveIntro(a, a[t := d]);
  }

  /** `AllEvolve` composes along a run. */
  lemma AllEvolveTransitive(a: seq<SimpleDebtRec>, b: seq<SimpleDebtRec>, c: seq<SimpleDebtRec>)
    requires AllEvolve(a, b) && AllEvolve(b, c)
    ensures AllEvolve(a, c)
  {
    forall j | 0 <= j < |a| ensures Evolves(a[j], c[j]) {
      AllEvolveAt(a, b, j);
      AllEvolveAt(b, c, j);
      EvolvesTransitive(a[j], b[j], c[j]);
    }
    AllEvolveIntro(a, c);
  }

  /** `apply_monthly_interest`: an inactive debt accrues nothing; an active
      one adds a month of interest to its balance and to its interest paid,
      and nothing else changes. */
  function Accrue(d: SimpleDebtRec): (r: (SimpleDebtRec, real))
    ensures !IsActive(d) ==> r == (d, 0.0)
    ensures IsActive(d) ==>
      && r.1 == MonthlyInterest(d)
      && r.0.principal - d.principal == r.1
      && r.0.totalInterestPaid - d.totalInterestPaid == r.1
      && r.0 == d.(principal := r.0.principal, totalInterestPaid := r.0.totalInterestPaid)
  {
    if !IsActive(d) then (d, 0.0)
    else
      var interest := MonthlyInterest(d);
      (d.(principal := d.principal + interest, totalInterestPaid := d.totalInterestPaid + interest), interest)
  }

  /** The dictionary `apply_payment` returns; `paidOff` is absent for an
      inactive debt. */
  datatype SimplePaymentResult = SimplePaymentResult(
    principalPayment: real,
    interestPayment: real,
    remaining: real,
    paidOff: Option<bool>)

  /** `apply_payment`: a no-op on an inactive debt. On an active debt a
      payment that covers the balance pays it off exactly, any other payment
      lowers the balance by exactly the payment, which leaves it positive;
      either way the balance is not negative afterwards, one more month is
      counted, and no interest is charged. */
  function PayDown(d: SimpleDebtRec, payment: real): (r: (SimpleDebtRec, SimplePaymentResult))
    ensures !IsActive(d) ==> r == (d, SimplePaymentResult(0.0, 0.0, d.principal, None))
    ensures IsActive(d) ==>
      && r.0 == d.(principal := r.0.principal, status := r.0.status, monthsPaid := d.monthsPaid + 1)
      && (r.0.status == PAID <==> payment >= d.principal)
      && (r.0.status == PAID ==> r.0.principal == 0.0)
      && (r.0.status != PAID ==> r.0.status == ACTIVE && d.principal - r.0.principal == payment)
      && r.0.principal >= 0.0
      && (r.0.status == ACTIVE ==> r.0.principal > 0.0)
      && r.1.principalPayment + r.0.principal == d.principal
      && r.1.interestPayment == 0.0
      && r.1.remaining == r.0.principal
      && r.1.paidOff == Some(r.0.status == PAID)
  {
    if !IsActive(d) then
      (d, SimplePaymentResult(0.0, 0.0, d.principal, None))
    else if payment >= d.principal then
      var paid := d.(principal := 0.0, status := PAID, monthsPaid := d.monthsPaid + 1);
      (paid, SimplePaymentResult(d.principal, 0.0, 0.0, Some(true)))
    else
      var rest := d.(principal := d.principal - payment, monthsPaid := d.monthsPaid + 1);
      (rest, SimplePaymentResult(payment, 0.0, rest.principal, Some(false)))
  }

  // ---------------------------------------------------------------------
  // The SimpleDebt object
  // ---------------------------------------------------------------------

  class SimpleDebt {
    const id: int
    const name: string
    const apr: real
    const minPayment: real
    var principal: real
    var status: string
    var monthsPaid: int
    var totalInterestPaid: real

    function Snap(): SimpleDebtRec
      reads this
    {
      SimpleDebtRec(id, name, principal, apr, minPayment, status, monthsPaid, totalInterestPaid)
    }

    constructor (id: int, name: string, principal: real, apr: real, minPayment: real)
      ensures Snap() == NewSimpleDebt(id, name, principal, apr, minPayment)
    {
      this.id := id;
      this.name := name;
      this.principal := principal;
      this.apr := apr;
      this.minPayment := minPayment;
      this.status := ACTIVE;
      this.monthsPaid := 0;
      this.totalInterestPaid := 0.0;
    }

    /** A copy with every field of `d`, as `copy.deepcopy` makes. */
    constructor Copy(d: SimpleDebt)
      ensures Snap() == d.Snap()
    {
      this.id := d.id;
      this.name := d.name;
      this.principal := d.principal;
      this.apr := d.apr;
      this.minPayment := d.minPayment;
      this.status := d.status;
      this.monthsPaid := d.monthsPaid;
      this.totalInterestPaid := d.totalInterestPaid;
    }

    function CalculateMonthlyInterest(): real
      reads this
    {
      MonthlyInterest(Snap())
    }

    method ApplyMonthlyInterest() returns (interest: real)
      modifies this
      ensures (Snap(), interest) == Accrue(old(Snap()))
    {
      if status != ACTIVE {
        return 0.0;
      }
      interest := CalculateMonthlyInterest();
      principal := principal + interest;
      totalInterestPaid := totalInterestPaid + interest;
    }

    method ApplyPayment(payment: real) returns (r: SimplePaymentResult)
      modifies this
      ensures (Snap(), r) == PayDown(old(Snap()), payment)
    {
      if status != ACTIVE {
        return SimplePaymentResult(0.0, 0.0, principal, None);
      }
      var principalPayment;
      if payment >= principal {
        principalPayment := principal;
        principal := 0.0;
        status := PAID;
      } else {
        principalPayment := payment;
        principal := principal - principalPayment;
      }
      monthsPaid := monthsPaid + 1;
      r := SimplePaymentResult(principalPayment, 0.0, principal, Some(status == PAID));
    }
  }

  function Snapshots(ws: seq<SimpleDebt>): (r: seq<SimpleDebtRec>)
    reads ws
    ensures |r| == |ws|
    ensures forall k :: 0 <= k < |ws| ==> r[k] == ws[k].Snap()
  {
    seq(|ws|, k requires 0 <= k < |ws| reads ws => ws[k].Snap())
  }

  // ---------------------------------------------------------------------
  // Which debts are active, and in which order they are served
  // ---------------------------------------------------------------------

  function ActiveIndices(ds: seq<SimpleDebtRec>): (r: seq<nat>)
    ensures forall k :: 0 <= k < |r| ==> r[k] < |ds| && IsActive(ds[r[k]])
    ensures forall j :: 0 <= j < |ds| && IsActive(ds[j]) ==> j in r
    ensures forall a, b :: 0 <= a < b < |r| ==> r[a] < r[b]
    decreases |ds|
  {
    if ds == [] then []
    else
      var front := ActiveIndices(ds[..|ds| - 1]);
      if IsActive(ds[|ds| - 1]) then front + [|ds| - 1] else front
  }

  function InactiveIndices(ds: seq<SimpleDebtRec>): (r: seq<nat>)
    ensures forall k :: 0 <= k < |r| ==> r[k] < |ds| && !IsActive(ds[r[k]])
    decreases |ds|
  {
    if ds == [] then []
    else
      var front := InactiveIndices(ds[..|ds| - 1]);
      if IsInactive(ds[|ds| - 1]) then front + [|ds| - 1] else front
  }

  /** The two orders the engine sorts active debts in. */
  datatype Ranking = HighestApr | SmallestBalance

  /** The sort key, ascending: `sort(key=apr, reverse=True)` is a stable
      ascending sort on the negated rate. */
  function RankKey(d: SimpleDebtRec, rank: Ranking): real
  {
    match rank
    case HighestApr => -d.apr
    case SmallestBalance => d.principal
  }

  function RankKeys(ds: seq<SimpleDebtRec>, rank: Ranking): (r: seq<real>)
    ensures |r| == |ds|
    ensures forall k :: 0 <= k < |ds| ==> r[k] == RankKey(ds[k], rank)
  {
    seq(|ds|, k requires 0 <= k < |ds| => RankKey(ds[k], rank))
  }

  /** The active debts, stably sorted: every active debt exactly once, and a
      debt before another has a smaller key, or the same key and an earlier
      place in the list. */
  function RankedActive(ds: seq<SimpleDebtRec>, rank: Ranking): (r: seq<nat>)
    ensures forall k :: 0 <= k < |r| ==> r[k] < |ds| && IsActive(ds[r[k]])
    ensures forall j :: 0 <= j < |ds| && IsActive(ds[j]) ==> j in r
    ensures forall p, q :: 0 <= p < q < |r| ==> Ordering.Precedes(RankKeys(ds, rank), r[p], r[q])
  {
    var act := ActiveIndices(ds);
    assert Ordering.InRange(act, |ds|);
    Ordering.SortedSubsetMembers(RankKeys(ds, rank), act);
    Ordering.SortedSubset(RankKeys(ds, rank), act)
  }

  /** The debt the engine serves first: for avalanche an active debt of
      highest rate, for snowball an active debt of smallest balance, and on
      a tie the one earliest in the list. */
  lemma RankedHeadIsBest(ds: seq<SimpleDebtRec>, rank: Ranking)
    requires RankedActive(ds, rank) != []
    ensures var t := RankedActive(ds, rank)[0];
      && t < |ds| && IsActive(ds[t])
      && forall j :: 0 <= j < |ds| && IsActive(ds[j]) ==>
           match rank
           case HighestApr => ds[j].apr <= ds[t].apr && (j < t ==> ds[j].apr < ds[t].apr)
           case SmallestBalance => ds[t].principal <= ds[j].principal && (j < t ==> ds[t].principal < ds[j].principal)
  {
    var r := RankedActive(ds, rank);
    var keys := RankKeys(ds, rank);
    forall j | 0 <= j < |ds| && IsActive(ds[j]) ensures keys[r[0]] <= keys[j] && (j < r[0] ==> keys[r[0]] < keys[j]) {
      var q :| 0 <= q < |r| && r[q] == j;
      if q > 0 {
        assert Ordering.Precedes(keys, r[0], r[q]);
      }
    }
  }

  /** There is someone to serve exactly when some debt is active. */
  lemma RankedActiveEmpty(ds: seq<SimpleDebtRec>, rank: Ranking)
    ensures RankedActive(ds, rank) == [] <==> ActiveIndices(ds) == []
  {
    var r := RankedActive(ds, rank);
    if r != [] {
      assert r[0] in ActiveIndices(ds);
    }
    if ActiveIndices(ds) != [] {
      assert ActiveIndices(ds)[0] in r;
    }
  }

  /** The number of active debts. */
  function ActiveCount(ds: seq<SimpleDebtRec>): nat
  {
    if ds == [] then 0 else ActiveCount(ds[..|ds| - 1]) + (if IsActive(ds[|ds| - 1]) then 1 else 0)
  }

  /** Paying off an active debt leaves one active debt fewer. */
  lemma {:induction false} RetiringLowersActiveCount(ds: seq<SimpleDebtRec>, t: nat, d: SimpleDebtRec)
    requires t < |ds| && IsActive(ds[t]) && !IsActive(d)
    ensures ActiveCount(ds[t := d]) + 1 == ActiveCount(ds)
    decreases |ds|
  {
    var n := |ds| - 1;
    var es := ds[t := d];
    if t == n {
      assert es[..n] == ds[..n];
    } else {
      assert es[..n] == ds[..n][t := d];
      RetiringLowersActiveCount(ds[..n], t, d);
    }
  }

  /** A payment that leaves a debt active, or inactive, keeps the count. */
  lemma {:induction false} SameStatusKeepsActiveCount(ds: seq<SimpleDebtRec>, t: nat, d: SimpleDebtRec)
    requires t < |ds| && (IsActive(ds[t]) <==> IsActive(d))
    ensures ActiveCount(ds[t := d]) == ActiveCount(ds)
    decreases |ds|
  {
    var n := |ds| - 1;
    var es := ds[t := d];
    if t == n {
      assert es[..n] == ds[..n];
    } else {
      assert es[..n] == ds[..n][t := d];
      SameStatusKeepsActiveCount(ds[..n], t, d);
    }
  }

  // ---------------------------------------------------------------------
  // One month of a run, as values
  // ---------------------------------------------------------------------

  /** The state inside one month: the working debts, the running totals, the
      interest each debt id accrued this month, and the month's record. */
  datatype Pass = Pass(
    debts: seq<SimpleDebtRec>,
    totalInterest: real,
    totalPayments: real,
    interestMap: map<int, real>,
    record: MonthRecord)

  /** `dict.get(key, 0)`. */
  function MapGet(m: map<int, real>, key: int): real
  {
    if key in m then m[key] else 0.0
  }

  /** Step 0 for the debt at position `i`: if active, it accrues a month of
      interest, which is recorded under its id and added to both totals. */
  function InterestStep(p: Pass, i: nat): (r: Pass)
    requires i < |p.debts|
    ensures |r.debts| == |p.debts|
    ensures forall j :: 0 <= j < |p.debts| && j != i ==> r.debts[j] == p.debts[j]
    ensures r.debts[i].status == p.debts[i].status && Evolves(p.debts[i], r.debts[i])
    ensures r.totalPayments == p.totalPayments
    ensures r.totalInterest - r.record.interestThisMonth == p.totalInterest - p.record.interestThisMonth
    ensures r.record.(interestThisMonth := 0.0) == p.record.(interestThisMonth := 0.0)
  {
    var d := p.debts[i];
    if !IsActive(d) then p
    else
      var interest := Accrue(d).1;
      Pass(p.debts[i := Accrue(d).0], p.totalInterest + interest, p.totalPayments,
           p.interestMap[d.id := interest],
           p.record.(interestThisMonth := p.record.interestThisMonth + interest))
  }

  /** Step 0 over the first `k` debts of `order`. */
  function InterestPass(p: Pass, order: seq<nat>, k: nat): (r: Pass)
    requires k <= |order| && Ordering.InRange(order, |p.debts|)
    ensures |r.debts| == |p.debts|
  {
    if k == 0 then p else InterestStep(InterestPass(p, order, k - 1), order[k - 1])
  }

  /** Step 0 changes no status, only lets debts evolve, pays nothing, and
      adds the same interest to the run total and to the month's record,
      which it changes in nothing else. */
  lemma {:induction false} InterestPassFacts(p: Pass, order: seq<nat>, k: nat)
    requires k <= |order| && Ordering.InRange(order, |p.debts|)
    ensures var r := InterestPass(p, order, k);
      && (forall j :: 0 <= j < |p.debts| ==> r.debts[j].status == p.debts[j].status)
      && AllEvolve(p.debts, r.debts)
      && r.totalPayments == p.totalPayments
      && r.totalInterest - r.record.interestThisMonth == p.totalInterest - p.record.interestThisMonth
      && r.record.(interestThisMonth := 0.0) == p.record.(interestThisMonth := 0.0)
  {
    if k == 0 {
      AllEvolveRefl(p.debts);
    } else {
      InterestPassFacts(p, order, k - 1);
      var q := InterestPass(p, order, k - 1);
      var r := InterestStep(q, order[k - 1]);
      AllEvolveIntro(q.debts, r.debts);
      AllEvolveTransitive(p.debts, q.debts, r.debts);
    }
  }

  /** Step 1 for the debt at position `i`: if active, it pays its minimum;
      the month records the payment, an entry for the debt with the
      interest recorded under its id, and its name if that paid it off. */
  function MinStep(p: Pass, i: nat): (r: Pass)
    requires i < |p.debts|
    ensures |r.debts| == |p.debts|
    ensures forall j :: 0 <= j < |p.debts| && j != i ==> r.debts[j] == p.debts[j]
    ensures Evolves(p.debts[i], r.debts[i])
    ensures r.totalInterest == p.totalInterest && r.record.interestThisMonth == p.record.interestThisMonth
    ensures r.totalPayments - r.record.paymentsThisMonth == p.totalPayments - p.record.paymentsThisMonth
    ensures IsActive(p.debts[i]) ==> r.record.paymentsThisMonth == p.record.paymentsThisMonth + p.debts[i].minPayment
    ensures !IsActive(p.debts[i]) ==> r == p
    ensures r.record.month == p.record.month && r.record.dateOffsetDays == p.record.dateOffsetDays
    ensures |r.record.debts| == |p.record.debts| + (if IsActive(p.debts[i]) then 1 else 0)
  {
    var d := p.debts[i];
    if !IsActive(d) then p
    else
      var paid := PayDown(d, d.minPayment).0;
      var info := DebtInfo(d.id, d.name, paid.principal, MapGet(p.interestMap, d.id), d.minPayment, paid.status);
      Pass(p.debts[i := paid], p.totalInterest, p.totalPayments + d.minPayment, p.interestMap,
           p.record.(paymentsThisMonth := p.record.paymentsThisMonth + d.minPayment,
                     debts := p.record.debts + [info],
                     paidOffThisMonth := p.record.paidOffThisMonth + (if paid.status == PAID then [d.name] else [])))
  }

  /** Step 1 over the first `k` debts of `order`. */
  function MinimumPass(p: Pass, order: seq<nat>, k: nat): (r: Pass)
    requires k <= |order| && Ordering.InRange(order, |p.debts|)
    ensures |r.debts| == |p.debts|
  {
    if k == 0 then p else MinStep(MinimumPass(p, order, k - 1), order[k - 1])
  }

  /** Step 1 leaves the debts it has not visited alone. */
  lemma {:induction false} MinimumPassUntouched(p: Pass, order: seq<nat>, k: nat)
    requires k <= |order| && Ordering.InRange(order, |p.debts|)
    ensures var r := MinimumPass(p, order, k);
      forall j :: 0 <= j < |p.debts| && j !in order[..k] ==> r.debts[j] == p.debts[j]
  {
    if k > 0 {
      MinimumPassUntouched(p, order, k - 1);
      assert order[..k] == order[..k - 1] + [order[k - 1]];
    }
  }

  /** Step 1 leaves the debts it has not visited alone, only lets debts
      evolve, charges no interest, adds the same payments to the run total
      and to the month's record, and keeps the month's number and date. */
  lemma {:induction false} MinimumPassFacts(p: Pass, order: seq<nat>, k: nat)
    requires k <= |order| && Ordering.InRange(order, |p.debts|)
    ensures var r := MinimumPass(p, order, k);
      && (forall j :: 0 <= j < |p.debts| && j !in order[..k] ==> r.debts[j] == p.debts[j])
      && AllEvolve(p.debts, r.debts)
      && r.totalInterest == p.totalInterest && r.record.interestThisMonth == p.record.interestThisMonth
      && r.totalPayments - r.record.paymentsThisMonth == p.totalPayments - p.record.paymentsThisMonth
      && r.record.month == p.record.month && r.record.dateOffsetDays == p.record.dateOffsetDays
  {
    MinimumPassUntouched(p, order, k);
    if k == 0 {
      AllEvolveRefl(p.debts);
    } else {
      MinimumPassFacts(p, order, k - 1);
      var q := MinimumPass(p, order, k - 1);
      var r := MinStep(q, order[k - 1]);
      AllEvolveIntro(q.debts, r.debts);
      AllEvolveTransitive(p.debts, q.debts, r.debts);
    }
  }

  /** A payment beyond the minimum to the debt at `t`: the debt takes it,
      the month's entry for its id shows the new balance and status and the
      added payment, and its name is listed if that paid it off. */
  function PayRemaining(p: Pass, t: nat, amount: real): (r: Pass)
    requires t < |p.debts|
    ensures r.debts == p.debts[t := PayDown(p.debts[t], amount).0]
    ensures AllEvolve(p.debts, r.debts)
    ensures r.totalPayments == p.totalPayments + amount
    ensures r.record.paymentsThisMonth == p.record.paymentsThisMonth + amount
    ensures r.totalInterest == p.totalInterest && r.record.interestThisMonth == p.record.interestThisMonth
    ensures r.record.month == p.record.month && r.record.dateOffsetDays == p.record.dateOffsetDays
    ensures |r.record.debts| == |p.record.debts|
  {
    var d := p.debts[t];
    var paid := PayDown(d, amount).0;
    AllEvolveUpdate(p.debts, t, paid);
    Pass(p.debts[t := paid], p.totalInterest, p.totalPayments + amount, p.interestMap,
         p.record.(debts := UpdateInfo(p.record.debts, d.id, paid.principal, amount, paid.status),
                   paymentsThisMonth := p.record.paymentsThisMonth + amount,
                   paidOffThisMonth := p.record.paidOffThisMonth + (if paid.status == PAID then [d.name] else [])))
  }

  /** Step 2 of a reallocating month, the `while` loop: as long as money
      remains and a debt is active, all of it goes to the first debt in
      strategy order; a payoff frees that debt's minimum for the next round,
      anything else ends the loop. The loop ends because each round either
      retires a debt or empties the pool. */
  function Waterfall(p: Pass, remaining: real, rank: Ranking): (r: Pass)
    ensures |r.debts| == |p.debts|
    ensures AllEvolve(p.debts, r.debts)
    ensures r.totalInterest == p.totalInterest && r.record.interestThisMonth == p.record.interestThisMonth
    ensures r.totalPayments - r.record.paymentsThisMonth == p.totalPayments - p.record.paymentsThisMonth
    ensures r.record.month == p.record.month && r.record.dateOffsetDays == p.record.dateOffsetDays
    ensures |r.record.debts| == |p.record.debts|
    ensures remaining <= 0.0 || RankedActive(p.debts, rank) == [] ==> r == p
    ensures remaining > 0.0 && RankedActive(p.debts, rank) != [] ==>
      var t := RankedActive(p.debts, rank)[0];
      && (r.debts[t].status == PAID <==> remaining >= p.debts[t].principal)
      && (remaining < p.debts[t].principal ==>
            && r.debts == p.debts[t := PayDown(p.debts[t], remaining).0]
            && r.record.paymentsThisMonth == p.record.paymentsThisMonth + remaining)
    decreases ActiveCount(p.debts), if remaining > 0.0 then 1 else 0
  {
    if remaining <= 0.0 then
      AllEvolveRefl(p.debts);
      p
    else
      var order := RankedActive(p.debts, rank);
      if order == [] then
        AllEvolveRefl(p.debts);
        p
      else
        var t := order[0];
        var q := PayRemaining(p, t, remaining);
        if q.debts[t].status == PAID then
          assert ActiveCount(q.debts) < ActiveCount(p.debts) by {
            RetiringLowersActiveCount(p.debts, t, q.debts[t]);
          }
          var r := Waterfall(q, q.debts[t].minPayment, rank);
          AllEvolveTransitive(p.debts, q.debts, r.debts);
          AllEvolveAt(q.debts, r.debts, t);
          r
        else
          q
  }

  /** A round that pays off the first-ranked debt hands exactly that debt's
      minimum on to the next round. */
  lemma WaterfallNextRound(p: Pass, remaining: real, rank: Ranking)
    requires remaining > 0.0 && RankedActive(p.debts, rank) != []
    requires remaining >= p.debts[RankedActive(p.debts, rank)[0]].principal
    ensures var t := RankedActive(p.debts, rank)[0];
      Waterfall(p, remaining, rank) == Waterfall(PayRemaining(p, t, remaining), p.debts[t].minPayment, rank)
  {
  }

  /** The minimums, where positive, of the debts active in `a` and paid in
      `b`: the money their payoffs free. */
  function FreedMinimums(a: seq<SimpleDebtRec>, b: seq<SimpleDebtRec>): real
    requires |a| == |b|
    decreases |a|
  {
    if a == [] then 0.0
    else
      var n := |a| - 1;
      FreedMinimums(a[..n], b[..n])
      + (if IsActive(a[n]) && b[n].status == PAID && a[n].minPayment > 0.0 then a[n].minPayment else 0.0)
  }

  lemma {:induction false} FreedMinimumsNone(a: seq<SimpleDebtRec>)
    ensures FreedMinimums(a, a) == 0.0
    decreases |a|
  {
    if a != [] {
      FreedMinimumsNone(a[..|a| - 1]);
    }
  }

  /** A change at one position frees that debt's minimum exactly when it
      pays off an active debt. */
  lemma {:induction false} FreedMinimumsUpdate(a: seq<SimpleDebtRec>, t: nat, d: SimpleDebtRec)
    requires t < |a|
    ensures FreedMinimums(a, a[t := d])
         == if IsActive(a[t]) && d.status == PAID && a[t].minPayment > 0.0 then a[t].minPayment else 0.0
    decreases |a|
  {
    var n := |a| - 1;
    var b := a[t := d];
    if t == n {
      assert b[..n] == a[..n];
      FreedMinimumsNone(a[..n]);
    } else {
      assert b[..n] == a[..n][t := d];
      FreedMinimumsUpdate(a[..n], t, d);
    }
  }

  /** Along evolving debts, the minimums freed add up. */
  lemma {:induction false} FreedMinimumsAdd(a: seq<SimpleDebtRec>, b: seq<SimpleDebtRec>, c: seq<SimpleDebtRec>)
    requires AllEvolve(a, b) && AllEvolve(b, c)
    ensures FreedMinimums(a, c) == FreedMinimums(a, b) + FreedMinimums(b, c)
    decreases |a|
  {
    if a != [] {
      var n := |a| - 1;
      FreedMinimumsAdd(a[..n], b[..n], c[..n]);
    }
  }

  /** While a debt stays active to take it, the waterfall spends the money
      it starts with and every minimum its payoffs free. */
  lemma {:induction false} WaterfallSpending(p: Pass, remaining: real, rank: Ranking)
    requires remaining > 0.0
    requires RankedActive(Waterfall(p, remaining, rank).debts, rank) != []
    ensures var r := Waterfall(p, remaining, rank);
      r.record.paymentsThisMonth == p.record.paymentsThisMonth + remaining + FreedMinimums(p.debts, r.debts)
    decreases ActiveCount(p.debts)
  {
    var r := Waterfall(p, remaining, rank);
    var order := RankedActive(p.debts, rank);
    assert order != [];
    var t := order[0];
    var q := PayRemaining(p, t, remaining);
    if q.debts[t].status == PAID {
      var m := q.debts[t].minPayment;
      assert r == Waterfall(q, m, rank);
      FreedMinimumsUpdate(p.debts, t, PayDown(p.debts[t], remaining).0);
      if m > 0.0 {
        RetiringLowersActiveCount(p.debts, t, q.debts[t]);
        WaterfallSpending(q, m, rank);
        FreedMinimumsAdd(p.debts, q.debts, r.debts);
      }
    } else {
      FreedMinimumsUpdate(p.debts, t, PayDown(p.debts[t], remaining).0);
    }
  }

  /** Step 2 of a baseline month: a positive extra goes, whole, to the
      active debt of highest rate, if there is one. */
  function BaselineExtra(p: Pass, extra: real): (r: Pass)
    ensures |r.debts| == |p.debts|
    ensures AllEvolve(p.debts, r.debts)
    ensures r.totalInterest == p.totalInterest && r.record.interestThisMonth == p.record.interestThisMonth
    ensures r.totalPayments - r.record.paymentsThisMonth == p.totalPayments - p.record.paymentsThisMonth
    ensures r.record.month == p.record.month && r.record.dateOffsetDays == p.record.dateOffsetDays
    ensures |r.record.debts| == |p.record.debts|
    ensures r.record.paymentsThisMonth == p.record.paymentsThisMonth
         || (extra > 0.0 && r.record.paymentsThisMonth == p.record.paymentsThisMonth + extra)
    ensures extra <= 0.0 || RankedActive(p.debts, HighestApr) == [] ==> r == p
    ensures extra > 0.0 && RankedActive(p.debts, HighestApr) != [] ==>
      var t := RankedActive(p.debts, HighestApr)[0];
      && r.debts == p.debts[t := PayDown(p.debts[t], extra).0]
      && r.record.paymentsThisMonth == p.record.paymentsThisMonth + extra
  {
    AllEvolveRefl(p.debts);
    if extra > 0.0 then
      var order := RankedActive(p.debts, HighestApr);
      if order == [] then p else PayRemaining(p, order[0], extra)
    else
      p
  }

  /** How a run spends the money beyond the minimums. `Reallocate` holds the
      monthly budget fixed at the start of the run. */
  datatype Plan = Reallocate(rank: Ranking, available: real) | Baseline(extra: real)

  /** The order steps 0 and 1 visit the active debts in: sorted by the
      strategy when reallocating, list order in the baseline. */
  function MonthOrder(ds: seq<SimpleDebtRec>, plan: Plan): (r: seq<nat>)
    ensures Ordering.InRange(r, |ds|)
    ensures forall k :: 0 <= k < |r| ==> IsActive(ds[r[k]])
    ensures forall a, b :: 0 <= a < b < |r| ==> r[a] != r[b]
  {
    match plan
    case Reallocate(rank, _) => RankedActive(ds, rank)
    case Baseline(_) => ActiveIndices(ds)
  }

  /** The money step 2 of a reallocating month starts with: the monthly
      budget less what the minimums took. */
  function Pool(p: Pass, available: real): real
  {
    available - p.record.paymentsThisMonth
  }

  function ExtraStage(p: Pass, plan: Plan): (r: Pass)
  {
    match plan
    case Reallocate(rank, available) => Waterfall(p, Pool(p, available), rank)
    case Baseline(extra) => BaselineExtra(p, extra)
  }

  /** Step 2, under either plan, only lets debts evolve, charges no
      interest, adds the same payments to the run total and to the month's
      record, adds no entry to it and keeps its number and date. */
  lemma ExtraStageFacts(p: Pass, plan: Plan)
    ensures var r := ExtraStage(p, plan);
      && |r.debts| == |p.debts|
      && AllEvolve(p.debts, r.debts)
      && r.totalInterest == p.totalInterest && r.record.interestThisMonth == p.record.interestThisMonth
      && r.totalPayments - r.record.paymentsThisMonth == p.totalPayments - p.record.paymentsThisMonth
      && r.record.month == p.record.month && r.record.dateOffsetDays == p.record.dateOffsetDays
      && |r.record.debts| == |p.record.debts|
  {
  }

  /** The state between months: the working debts, the running totals and
      the months recorded so far. */
  datatype RunState = RunState(
    debts: seq<SimpleDebtRec>,
    totalInterest: real,
    totalPayments: real,
    results: seq<MonthRecord>)

  function StartOfMonth(st: RunState, m: nat): Pass
  {
    Pass(st.debts, st.totalInterest, st.totalPayments, map[], EmptyMonth(m))
  }

  /** Month `m` after steps 0 and 1. */
  function AfterMinimums(st: RunState, m: nat, plan: Plan): (r: Pass)
    ensures |r.debts| == |st.debts|
  {
    var order := MonthOrder(st.debts, plan);
    var afterInterest := InterestPass(StartOfMonth(st, m), order, |order|);
    MinimumPass(afterInterest, order, |order|)
  }

  /** The balance still owed on the active debts. */
  function ActiveBalance(ds: seq<SimpleDebtRec>): real
    decreases |ds|
  {
    if ds == [] then 0.0
    else
      var last := ds[|ds| - 1];
      ActiveBalance(ds[..|ds| - 1]) + if IsActive(last) then last.principal else 0.0
  }

  /** The last month recorded, if any, shows what the active debts still owe. */
  predicate LastBalanceOwed(st: RunState)
  {
    |st.results| > 0 ==> st.results[|st.results| - 1].totalBalance == ActiveBalance(st.debts)
  }

  /** Month `m` (counting from 0): steps 0, 1 and 2, then the month's total
      balance, which is what the active debts still owe, and its record is
      appended. */
  function Month(st: RunState, m: nat, plan: Plan): (r: RunState)
    ensures |r.debts| == |st.debts|
    ensures AllEvolve(st.debts, r.debts)
    ensures |r.results| == |st.results| + 1 && r.results[..|st.results|] == st.results
    ensures r.results[|st.results|].month == m + 1 && r.results[|st.results|].dateOffsetDays == 30 * m
    ensures r.results[|st.results|].totalBalance == ActiveBalance(r.debts) && LastBalanceOwed(r)
    ensures r.totalInterest == st.totalInterest + r.results[|st.results|].interestThisMonth
    ensures r.totalPayments == st.totalPayments + r.results[|st.results|].paymentsThisMonth
  {
    var order := MonthOrder(st.debts, plan);
    var a := InterestPass(StartOfMonth(st, m), order, |order|);
    InterestPassFacts(StartOfMonth(st, m), order, |order|);
    var b := AfterMinimums(st, m, plan);
    MinimumPassFacts(a, order, |order|);
    var c := ExtraStage(b, plan);
    ExtraStageFacts(b, plan);
    assert AllEvolve(st.debts, c.debts) by {
      AllEvolveTransitive(st.debts, a.debts, b.debts);
      AllEvolveTransitive(st.debts, b.debts, c.debts);
    }
    var rec := c.record.(totalBalance := ActiveBalance(c.debts));
    assert (st.results + [rec])[..|st.results|] == st.results;
    RunState(c.debts, c.totalInterest, c.totalPayments, st.results + [rec])
  }

  /** The run from month `m` on: it stops at the horizon or at the first
      month that starts with no active debt. */
  function RunFrom(st: RunState, m: nat, horizon: int, plan: Plan): (r: RunState)
    ensures |r.debts| == |st.debts|
    ensures AllEvolve(st.debts, r.debts)
    ensures |r.results| >= |st.results| && r.results[..|st.results|] == st.results
    ensures |r.results| == |st.results| ==> r == st
    ensures |r.results| > |st.results| ==> LastBalanceOwed(r)
    decreases horizon - m
  {
    if m >= horizon || ActiveIndices(st.debts) == [] then
      assert st.results[..|st.results|] == st.results;
      AllEvolveRefl(st.debts);
      st
    else
      var next := Month(st, m, plan);
      var r := RunFrom(next, m + 1, horizon, plan);
      AllEvolveTransitive(st.debts, next.debts, r.debts);
      assert r.results[..|st.results|] == r.results[..|next.results|][..|st.results|];
      r
  }

  /** A month put together from its stages. */
  lemma MonthFromSteps(st: RunState, m: nat, plan: Plan, c: Pass)
    requires c == ExtraStage(AfterMinimums(st, m, plan), plan)
    ensures Month(st, m, plan)
         == RunState(c.debts, c.totalInterest, c.totalPayments,
                     st.results + [c.record.(totalBalance := ActiveBalance(c.debts))])
  {
  }

  lemma RunFromUnfold(st: RunState, m: nat, horizon: int, plan: Plan)
    requires m < horizon && ActiveIndices(st.debts) != []
    ensures RunFrom(st, m, horizon, plan) == RunFrom(Month(st, m, plan), m + 1, horizon, plan)
  {
  }

  /** The month loop stops at the horizon or once no debt is active. */
  lemma RunFromDone(st: RunState, m: nat, horizon: int, plan: Plan)
    requires m >= horizon || ActiveIndices(st.debts) == []
    ensures RunFrom(st, m, horizon, plan) == st
  {
  }

  // ---------------------------------------------------------------------
  // The result of a run
  // ---------------------------------------------------------------------

  function MinPayments(ds: seq<SimpleDebtRec>): (r: seq<real>)
    ensures |r| == |ds| && forall k :: 0 <= k < |ds| ==> r[k] == ds[k].minPayment
  {
    seq(|ds|, k requires 0 <= k < |ds| => ds[k].minPayment)
  }

  /** The monthly budget of a reallocating run: every debt's minimum,
      whatever its status, plus the extra. */
  function TotalAvailable(ds: seq<SimpleDebtRec>, extraPayment: real): real
  {
    Sum(MinPayments(ds)) + extraPayment
  }

  datatype SimpleSummary = SimpleSummary(
    totalInterestPaid: real,
    totalPaymentsMade: real,
    monthsToZero: int,
    debtFreeDate: Option<int>,
    finalTotalBalance: real)

  datatype SimpleResult = SimpleResult(
    results: seq<MonthRecord>,
    summary: SimpleSummary,
    finalDebts: seq<FinalDebt>)

  function FinalDebtOf(d: SimpleDebtRec): FinalDebt
  {
    FinalDebt(d.id, d.name, d.principal, d.totalInterestPaid, d.monthsPaid, d.status)
  }

  function FinalDebts(ds: seq<SimpleDebtRec>): (r: seq<FinalDebt>)
    ensures |r| == |ds| && forall k :: 0 <= k < |ds| ==> r[k] == FinalDebtOf(ds[k])
  {
    seq(|ds|, k requires 0 <= k < |ds| => FinalDebtOf(ds[k]))
  }

  function InitialState(debts: seq<SimpleDebtRec>): RunState
  {
    RunState(debts, 0.0, 0.0, [])
  }

  /** The answer of `simulate_avalanche` / `simulate_snowball` read off the
      final state of the month loop. */
  function Summarize(fin: RunState): SimpleResult
  {
    SimpleResult(
      fin.results,
      SimpleSummary(fin.totalInterest, fin.totalPayments, |fin.results|, DebtFreeDate(fin.results),
                    ActiveBalance(fin.debts)),
      FinalDebts(fin.debts))
  }

  /** `simulate_avalanche` / `simulate_snowball` on debt values. */
  function Simulation(debts: seq<SimpleDebtRec>, extraPayment: real, rank: Ranking, maxMonths: int): SimpleResult
  {
    Summarize(RunFrom(InitialState(debts), 0, maxMonths, Reallocate(rank, TotalAvailable(debts, extraPayment))))
  }

  /** A run of the ranked strategies is the summary of its month loop. */
  lemma SimulationOfRun(debts: seq<SimpleDebtRec>, extraPayment: real, rank: Ranking, maxMonths: int, fin: RunState)
    requires fin == RunFrom(InitialState(debts), 0, maxMonths, Reallocate(rank, TotalAvailable(debts, extraPayment)))
    ensures Simulation(debts, extraPayment, rank, maxMonths) == Summarize(fin)
  {
  }

  datatype BaselineSummary = BaselineSummary(
    monthsToZero: int,
    totalInterestPaid: real,
    totalPaymentsMade: real,
    finalDebts: seq<FinalDebt>,
    strategy: string)

  datatype BaselineResult = BaselineResult(
    results: seq<MonthRecord>,
    summary: BaselineSummary)

  /** The answer for an engine without debts. */
  const NO_DEBTS: string := "No debts loaded"

  /** Reading `active_debts`, which only the body of a loop that never ran
      would have set. */
  const UNBOUND_LOCAL: string := "UnboundLocalError: local variable referenced before assignment"

  /** `simulate_baseline` on debt values: without debts it answers with an
      error; with a horizon below one month its summary reads a variable
      only the month loop sets, and raises. */
  function BaselineSimulation(debts: seq<SimpleDebtRec>, extraPayment: real, maxMonths: int)
    : Result<BaselineResult>
  {
    if debts == [] then Failure(NO_DEBTS)
    else if maxMonths <= 0 then Failure(UNBOUND_LOCAL)
    else Success(SummarizeBaseline(RunFrom(InitialState(debts), 0, maxMonths, Baseline(extraPayment))))
  }

  /** The baseline report of a finished run: its months, its totals and its
      final debts. */
  function SummarizeBaseline(fin: RunState): BaselineResult
  {
    BaselineResult(
      fin.results,
      BaselineSummary(|fin.results|, fin.totalInterest, fin.totalPayments, FinalDebts(fin.debts), "baseline"))
  }

  /** A run reached by the month loop determines the baseline report. */
  lemma BaselineOfRun(debts: seq<SimpleDebtRec>, extraPayment: real, maxMonths: int, fin: RunState)
    requires debts != [] && maxMonths > 0
    requires fin == RunFrom(InitialState(debts), 0, maxMonths, Baseline(extraPayment))
    ensures BaselineSimulation(debts, extraPayment, maxMonths) == Success(SummarizeBaseline(fin))
  {
  }

  /** The `max_months` every caller inside the engine leaves at its default. */
  const DEFAULT_MAX_MONTHS: int := 600

  datatype StrategyComparison = StrategyComparison(
    avalanche: SimpleResult,
    snowball: SimpleResult,
    monthsDifference: int,
    interestDifference: real,
    avalancheBetter: bool,
    avalancheMonths: int,
    snowballMonths: int,
    avalancheInterest: real,
    snowballInterest: real)

  /** The comparison of an avalanche and a snowball run: their months and
      interest, the differences avalanche minus snowball, and avalanche is
      better exactly when it pays less interest. */
  function CompareRuns(av: SimpleResult, sn: SimpleResult): (c: StrategyComparison)
    ensures c.avalanche == av && c.snowball == sn
    ensures c.avalancheMonths == av.summary.monthsToZero && c.snowballMonths == sn.summary.monthsToZero
    ensures c.avalancheInterest == av.summary.totalInterestPaid && c.snowballInterest == sn.summary.totalInterestPaid
    ensures c.monthsDifference + c.snowballMonths == c.avalancheMonths
    ensures c.interestDifference + c.snowballInterest == c.avalancheInterest
    ensures c.avalancheBetter <==> c.avalancheInterest < c.snowballInterest
  {
    var monthsDifference := av.summary.monthsToZero - sn.summary.monthsToZero;
    var interestDifference := av.summary.totalInterestPaid - sn.summary.totalInterestPaid;
    StrategyComparison(av, sn, monthsDifference, interestDifference, interestDifference < 0.0,
                       av.summary.monthsToZero, sn.summary.monthsToZero,
                       av.summary.totalInterestPaid, sn.summary.totalInterestPaid)
  }

  /** The live `compare_strategies`: an error without debts, otherwise both
      runs at the default horizon, compared. */
  function Comparison(debts: seq<SimpleDebtRec>, extraPayment: real): (r: Result<StrategyComparison>)
    ensures r.Failure? <==> debts == []
    ensures r.Failure? ==> r.error == NO_DEBTS
    ensures r.Success? ==>
      && r.value.avalanche == Simulation(debts, extraPayment, HighestApr, DEFAULT_MAX_MONTHS)
      && r.value.snowball == Simulation(debts, extraPayment, SmallestBalance, DEFAULT_MAX_MONTHS)
  {
    if debts == [] then Failure(NO_DEBTS)
    else
      Success(CompareRuns(Simulation(debts, extraPayment, HighestApr, DEFAULT_MAX_MONTHS),
                          Simulation(debts, extraPayment, SmallestBalance, DEFAULT_MAX_MONTHS)))
  }

  datatype SimpleImpact = SimpleImpact(
    base: SimpleResult,
    enhanced: SimpleResult,
    monthsSaved: int,
    interestSaved: real,
    newDebtFreeDate: Option<int>,
    roiPerRand: real)

  /** Any strategy name but "avalanche" runs snowball. */
  function StrategyRanking(strategy: string): Ranking
  {
    if strategy == "avalanche" then HighestApr else SmallestBalance
  }

  /** The impact of the additional extra, from the base and the enhanced
      run: months and interest saved are the differences, the new debt-free
      date is the enhanced run's, and the return per unit of additional
      extra is the interest saved divided by it, or 0 unless it is positive. */
  function ImpactOfRuns(base: SimpleResult, enhanced: SimpleResult, additionalExtra: real): (r: SimpleImpact)
    ensures r.base == base && r.enhanced == enhanced
    ensures r.monthsSaved + enhanced.summary.monthsToZero == base.summary.monthsToZero
    ensures r.interestSaved + enhanced.summary.totalInterestPaid == base.summary.totalInterestPaid
    ensures r.newDebtFreeDate == enhanced.summary.debtFreeDate
    ensures additionalExtra > 0.0 ==> r.roiPerRand * additionalExtra == r.interestSaved
    ensures additionalExtra <= 0.0 ==> r.roiPerRand == 0.0
  {
    var interestSaved := base.summary.totalInterestPaid - enhanced.summary.totalInterestPaid;
    SimpleImpact(base, enhanced, base.summary.monthsToZero - enhanced.summary.monthsToZero, interestSaved,
                 enhanced.summary.debtFreeDate,
                 if additionalExtra > 0.0 then interestSaved / additionalExtra else 0.0)
  }

  /** `calculate_extra_payment_impact` on debt values: the run with the base
      extra against the run with the base plus the additional extra, both
      under the named strategy. */
  function ExtraImpact(debts: seq<SimpleDebtRec>, baseExtra: real, additionalExtra: real, strategy: string)
    : SimpleImpact
  {
    var rank := StrategyRanking(strategy);
    ImpactOfRuns(Simulation(debts, baseExtra, rank, DEFAULT_MAX_MONTHS),
                 Simulation(debts, TotalExtra(baseExtra, additionalExtra), rank, DEFAULT_MAX_MONTHS),
                 additionalExtra)
  }

  // ---------------------------------------------------------------------
  // What a month pays
  // ---------------------------------------------------------------------

  /** The minimums of the debts at the given positions. */
  function MinsAt(ds: seq<SimpleDebtRec>, pos: seq<nat>): (r: seq<real>)
    requires Ordering.InRange(pos, |ds|)
    ensures |r| == |pos| && forall k :: 0 <= k < |pos| ==> r[k] == ds[pos[k]].minPayment
  {
    Ordering.Pick(MinPayments(ds), pos)
  }

  lemma SumMinsSnoc(ds: seq<SimpleDebtRec>, pos: seq<nat>, n: nat)
    requires Ordering.InRange(pos, |ds|) && n < |ds|
    ensures Ordering.InRange(pos + [n], |ds|)
    ensures Sum(MinsAt(ds, pos + [n])) == Sum(MinsAt(ds, pos)) + ds[n].minPayment
  {
    var front := MinsAt(ds, pos);
    var all := MinsAt(ds, pos + [n]);
    assert all[..|pos|] == front;
  }

  lemma MinsAtPrefix(ds: seq<SimpleDebtRec>, n: nat, pos: seq<nat>)
    requires n <= |ds| && Ordering.InRange(pos, n)
    ensures Ordering.InRange(pos, |ds|)
    ensures MinsAt(ds[..n], pos) == MinsAt(ds, pos)
  {
  }

  /** The minimums of all debts are those of the active ones plus those of
      the others. */
  lemma {:induction false} MinsSplitByStatus(ds: seq<SimpleDebtRec>)
    ensures Ordering.InRange(ActiveIndices(ds), |ds|) && Ordering.InRange(InactiveIndices(ds), |ds|)
    ensures Sum(MinPayments(ds)) == Sum(MinsAt(ds, ActiveIndices(ds))) + Sum(MinsAt(ds, InactiveIndices(ds)))
    decreases |ds|
  {
    if ds != [] {
      var n := |ds| - 1;
      var pre := ds[..n];
      var act, inact := ActiveIndices(pre), InactiveIndices(pre);
      assert Sum(MinPayments(pre)) == Sum(MinsAt(ds, act)) + Sum(MinsAt(ds, inact)) by {
        MinsSplitByStatus(pre);
        MinsAtPrefix(ds, n, act);
        MinsAtPrefix(ds, n, inact);
      }
      assert Sum(MinPayments(ds)) == Sum(MinPayments(pre)) + ds[n].minPayment by {
        assert MinPayments(ds)[..n] == MinPayments(pre);
      }
      if IsActive(ds[n]) {
        assert ActiveIndices(ds) == act + [n] && InactiveIndices(ds) == inact;
        SumMinsSnoc(ds, act, n);
      } else {
        assert ActiveIndices(ds) == act && InactiveIndices(ds) == inact + [n];
        SumMinsSnoc(ds, inact, n);
      }
    }
  }

  /** Debts that evolve keep their minimums. */
  lemma EvolvesKeepsMinimums(a: seq<SimpleDebtRec>, b: seq<SimpleDebtRec>)
    requires AllEvolve(a, b)
    ensures MinPayments(a) == MinPayments(b)
  {
    forall j | 0 <= j < |a| ensures MinPayments(a)[j] == MinPayments(b)[j] {
      AllEvolveAt(a, b, j);
    }
  }

  /** With distinct positions, the next debt in the order is still as it
      was before step 1 began. */
  lemma NextUntouched(p: Pass, order: seq<nat>, k: nat)
    requires k < |order| && Ordering.InRange(order, |p.debts|)
    requires forall a, b :: 0 <= a < b < |order| ==> order[a] != order[b]
    ensures MinimumPass(p, order, k).debts[order[k]] == p.debts[order[k]]
  {
    MinimumPassFacts(p, order, k);
    assert order[k] !in order[..k];
  }

  /** The minimums of the first `k` debts of `order`, added in that order. */
  function FirstMins(ds: seq<SimpleDebtRec>, order: seq<nat>, k: nat): real
    requires k <= |order| && Ordering.InRange(order, |ds|)
  {
    if k == 0 then 0.0 else FirstMins(ds, order, k - 1) + ds[order[k - 1]].minPayment
  }

  lemma {:induction false} FirstMinsIsSum(ds: seq<SimpleDebtRec>, order: seq<nat>, k: nat)
    requires k <= |order| && Ordering.InRange(order, |ds|)
    ensures Ordering.InRange(order[..k], |ds|)
    ensures FirstMins(ds, order, k) == Sum(MinsAt(ds, order[..k]))
  {
    Ordering.InRangePrefix(order, k, |ds|);
    if k == 0 {
      assert MinsAt(ds, order[..k]) == [];
    } else {
      FirstMinsIsSum(ds, order, k - 1);
      assert order[..k] == order[..k - 1] + [order[k - 1]];
      SumMinsSnoc(ds, order[..k - 1], order[k - 1]);
    }
  }

  lemma {:induction false} FirstMinsSameMinimums(a: seq<SimpleDebtRec>, b: seq<SimpleDebtRec>, order: seq<nat>, k: nat)
    requires k <= |order| && Ordering.InRange(order, |a|) && MinPayments(a) == MinPayments(b)
    ensures FirstMins(a, order, k) == FirstMins(b, order, k)
  {
    if k > 0 {
      FirstMinsSameMinimums(a, b, order, k - 1);
      assert MinPayments(a)[order[k - 1]] == MinPayments(b)[order[k - 1]];
    }
  }

  lemma {:induction false} MinimumPassPays(p: Pass, order: seq<nat>, k: nat)
    requires k <= |order| && Ordering.InRange(order, |p.debts|)
    requires forall a, b :: 0 <= a < b < |order| ==> order[a] != order[b]
    requires forall x :: 0 <= x < |order| ==> IsActive(p.debts[order[x]])
    ensures MinimumPass(p, order, k).record.paymentsThisMonth
         == p.record.paymentsThisMonth + FirstMins(p.debts, order, k)
    ensures |MinimumPass(p, order, k).record.debts| == |p.record.debts| + k
    decreases k
  {
    if k > 0 {
      MinimumPassPays(p, order, k - 1);
      NextUntouched(p, order, k - 1);
      assert MinimumPass(p, order, k) == MinStep(MinimumPass(p, order, k - 1), order[k - 1]);
    }
  }

  /** Steps 0 and 1 pay the minimums of the month's order, one entry each. */
  lemma MinimumsPaidInOrder(st: RunState, m: nat, plan: Plan)
    ensures var order := MonthOrder(st.debts, plan);
      && AfterMinimums(st, m, plan).record.paymentsThisMonth == FirstMins(st.debts, order, |order|)
      && |AfterMinimums(st, m, plan).record.debts| == |order|
  {
    var order := MonthOrder(st.debts, plan);
    var a := InterestPass(StartOfMonth(st, m), order, |order|);
    InterestPassFacts(StartOfMonth(st, m), order, |order|);
    assert a.record.paymentsThisMonth == 0.0 && a.record.debts == [];
    MinimumPassPays(a, order, |order|);
    EvolvesKeepsMinimums(st.debts, a.debts);
    FirstMinsSameMinimums(a.debts, st.debts, order, |order|);
  }

  /** Whatever order a month visits its debts in, it lists each active
      debt once, so their minimums add up to the same total. */
  lemma OrderCoversActive(ds: seq<SimpleDebtRec>, plan: Plan)
    ensures Ordering.InRange(ActiveIndices(ds), |ds|)
    ensures var order := MonthOrder(ds, plan);
      && |order| == |ActiveIndices(ds)|
      && FirstMins(ds, order, |order|) == Sum(MinsAt(ds, ActiveIndices(ds)))
  {
    var order := MonthOrder(ds, plan);
    var act := ActiveIndices(ds);
    assert multiset(order) == multiset(act);
    assert |order| == |act| by {
      assert |multiset(order)| == |order| && |multiset(act)| == |act|;
    }
    FirstMinsIsSum(ds, order, |order|);
    assert order[..|order|] == order;
    Ordering.PickPermutation(MinPayments(ds), order, act);
    SumPermutation(MinsAt(ds, order), MinsAt(ds, act));
  }

  /** Steps 0 and 1 of a month pay exactly the minimums of the debts active
      at its start, whatever order they are visited in, and record one entry
      for each. */
  lemma MinimumsPaid(st: RunState, m: nat, plan: Plan)
    ensures Ordering.InRange(ActiveIndices(st.debts), |st.debts|)
    ensures AfterMinimums(st, m, plan).record.paymentsThisMonth == Sum(MinsAt(st.debts, ActiveIndices(st.debts)))
    ensures |AfterMinimums(st, m, plan).record.debts| == |ActiveIndices(st.debts)|
  {
    MinimumsPaidInOrder(st, m, plan);
    OrderCoversActive(st.debts, plan);
  }

  /** The money a reallocating month has left after the minimums: the
      extra plus the minimums of the debts no longer active when the month
      began, since the budget counts every debt's minimum. */
  lemma PoolAfterMinimums(st: RunState, m: nat, rank: Ranking, debts: seq<SimpleDebtRec>, extraPayment: real)
    requires MinPayments(st.debts) == MinPayments(debts)
    ensures Ordering.InRange(InactiveIndices(st.debts), |st.debts|)
    ensures var plan := Reallocate(rank, TotalAvailable(debts, extraPayment));
      Pool(AfterMinimums(st, m, plan), plan.available)
      == extraPayment + Sum(MinsAt(st.debts, InactiveIndices(st.debts)))
  {
    MinimumsPaid(st, m, Reallocate(rank, TotalAvailable(debts, extraPayment)));
    MinsSplitByStatus(st.debts);
  }

  /** A baseline month pays the minimums of the debts active at its start
      and, when the extra is positive and a debt is still active, the extra
      once more: freed minimums are never passed on. */
  lemma BaselineMonthPayments(st: RunState, m: nat, extraPayment: real)
    ensures Ordering.InRange(ActiveIndices(st.debts), |st.debts|)
    ensures var rec := Month(st, m, Baseline(extraPayment)).results[|st.results|];
      || rec.paymentsThisMonth == Sum(MinsAt(st.debts, ActiveIndices(st.debts)))
      || (extraPayment > 0.0 && rec.paymentsThisMonth == Sum(MinsAt(st.debts, ActiveIndices(st.debts))) + extraPayment)
  {
    MinimumsPaid(st, m, Baseline(extraPayment));
  }

  /** Each month lists one entry per debt active at its start. */
  lemma MonthEntries(st: RunState, m: nat, plan: Plan)
    ensures |Month(st, m, plan).results[|st.results|].debts| == |ActiveIndices(st.debts)|
  {
    MinimumsPaid(st, m, plan);
  }

  // ---------------------------------------------------------------------
  // Facts about whole runs
  // ---------------------------------------------------------------------

  /** Months are numbered from 1 and dated 30 days apart from day 0. */
  predicate Numbered(rs: seq<MonthRecord>)
  {
    forall k :: 0 <= k < |rs| ==> rs[k].month == k + 1 && rs[k].dateOffsetDays == 30 * k
  }

  /** The running totals are the sums over the months recorded. */
  predicate TotalsMatch(st: RunState)
  {
    st.totalInterest == Sum(MonthlyInterests(st.results)) && st.totalPayments == Sum(MonthlyPayments(st.results))
  }

  /** Adding a month whose interest and payments are added to the running
      totals keeps the totals equal to the sums over the months. */
  lemma AppendKeepsTotals(st: RunState, next: RunState)
    requires TotalsMatch(st)
    requires |next.results| == |st.results| + 1 && next.results[..|st.results|] == st.results
    requires next.totalInterest == st.totalInterest + next.results[|st.results|].interestThisMonth
    requires next.totalPayments == st.totalPayments + next.results[|st.results|].paymentsThisMonth
    ensures TotalsMatch(next)
  {
    SumsOfAppendedMonth(st.results, next.results);
  }

  lemma {:induction false} NoActiveBalance(ds: seq<SimpleDebtRec>)
    requires forall j :: 0 <= j < |ds| ==> !IsActive(ds[j])
    ensures ActiveBalance(ds) == 0.0
    decreases |ds|
  {
    if ds != [] {
      var n := |ds| - 1;
      assert forall j :: 0 <= j < n ==> ds[..n][j] == ds[j];
      NoActiveBalance(ds[..n]);
    }
  }

  /** A run from month `m` adds months only up to the horizon and stops
      early only once no debt is active. */
  lemma {:induction false} RunFromStops(st: RunState, m: nat, horizon: int, plan: Plan)
    requires |st.results| == m
    ensures var fin := RunFrom(st, m, horizon, plan);
      && (|fin.results| > m ==> |fin.results| <= horizon)
      && (|fin.results| < horizon ==> ActiveIndices(fin.debts) == [])
    decreases horizon - m
  {
    if m < horizon && ActiveIndices(st.debts) != [] {
      var next := Month(st, m, plan);
      RunFromStops(next, m + 1, horizon, plan);
      assert RunFrom(st, m, horizon, plan) == RunFrom(next, m + 1, horizon, plan);
    }
  }

  /** Adding month `|rs| + 1`, dated `30 * |rs|` days on, keeps the months
      numbered and dated in order. */
  lemma AppendKeepsNumbered(rs: seq<MonthRecord>, next: seq<MonthRecord>)
    requires Numbered(rs)
    requires |next| == |rs| + 1 && next[..|rs|] == rs
    requires next[|rs|].month == |rs| + 1 && next[|rs|].dateOffsetDays == 30 * |rs|
    ensures Numbered(next)
  {
    forall k | 0 <= k < |rs| ensures next[k] == rs[k] {
      assert next[..|rs|][k] == next[k];
    }
  }

  /** A run from month `m` numbers and dates the months it adds. */
  lemma {:induction false} RunFromNumbered(st: RunState, m: nat, horizon: int, plan: Plan)
    requires |st.results| == m && Numbered(st.results)
    ensures Numbered(RunFrom(st, m, horizon, plan).results)
    decreases horizon - m
  {
    if m < horizon && ActiveIndices(st.debts) != [] {
      var next := Month(st, m, plan);
      AppendKeepsNumbered(st.results, next.results);
      RunFromNumbered(next, m + 1, horizon, plan);
      assert RunFrom(st, m, horizon, plan) == RunFrom(next, m + 1, horizon, plan);
    }
  }

  /** A run keeps the totals equal to the sums over the months. */
  lemma {:induction false} RunFromTotals(st: RunState, m: nat, horizon: int, plan: Plan)
    requires TotalsMatch(st)
    ensures TotalsMatch(RunFrom(st, m, horizon, plan))
    decreases horizon - m
  {
    if m < horizon && ActiveIndices(st.debts) != [] {
      var next := Month(st, m, plan);
      AppendKeepsTotals(st, next);
      RunFromTotals(next, m + 1, horizon, plan);
      assert RunFrom(st, m, horizon, plan) == RunFrom(next, m + 1, horizon, plan);
    }
  }

  /** Both, for a run from the start. */
  lemma RunFacts(debts: seq<SimpleDebtRec>, horizon: int, plan: Plan)
    ensures var fin := RunFrom(InitialState(debts), 0, horizon, plan);
      && (|fin.results| > 0 ==> |fin.results| <= horizon)
      && LastBalanceOwed(fin)
      && (|fin.results| < horizon ==> ActiveIndices(fin.debts) == [])
      && Numbered(fin.results) && TotalsMatch(fin)
  {
    assert MonthlyInterests([]) == [] && MonthlyPayments([]) == [];
    RunFromStops(InitialState(debts), 0, horizon, plan);
    RunFromNumbered(InitialState(debts), 0, horizon, plan);
    RunFromTotals(InitialState(debts), 0, horizon, plan);
  }

  /** What `simulate_avalanche` and `simulate_snowball` promise about the
      months they report: at most `maxMonths` of them, none when no debt
      starts active, fewer only once every debt is retired, numbered and
      dated in order; months to zero is their number and the totals are
      the sums over them. */
  lemma SimulationMonths(debts: seq<SimpleDebtRec>, extraPayment: real, rank: Ranking, maxMonths: int)
    ensures var res := Simulation(debts, extraPayment, rank, maxMonths);
      var n := |res.results|;
      && (n > 0 ==> n <= maxMonths)
      && (ActiveIndices(debts) == [] ==> n == 0)
      && (n < maxMonths ==> forall j :: 0 <= j < |res.finalDebts| ==> res.finalDebts[j].status != ACTIVE)
      && Numbered(res.results)
      && res.summary.monthsToZero == n
      && res.summary.totalInterestPaid == Sum(MonthlyInterests(res.results))
      && res.summary.totalPaymentsMade == Sum(MonthlyPayments(res.results))
  {
    var plan := Reallocate(rank, TotalAvailable(debts, extraPayment));
    RunFacts(debts, maxMonths, plan);
    var fin := RunFrom(InitialState(debts), 0, maxMonths, plan);
    if |fin.results| < maxMonths {
      NoActiveFinalDebts(fin.debts);
    }
  }

  /** Once no debt is active, no final debt reads active. */
  lemma NoActiveFinalDebts(ds: seq<SimpleDebtRec>)
    requires ActiveIndices(ds) == []
    ensures forall j :: 0 <= j < |FinalDebts(ds)| ==> FinalDebts(ds)[j].status != ACTIVE
  {
  }

  /** The final balance they report is the last month's, and zero with a
      debt-free date once every debt is retired. */
  lemma SimulationBalance(debts: seq<SimpleDebtRec>, extraPayment: real, rank: Ranking, maxMonths: int)
    ensures var res := Simulation(debts, extraPayment, rank, maxMonths);
      var n := |res.results|;
      && (n > 0 ==> res.results[n - 1].totalBalance == res.summary.finalTotalBalance)
      && ((forall j :: 0 <= j < |res.finalDebts| ==> res.finalDebts[j].status != ACTIVE) ==>
            res.summary.finalTotalBalance == 0.0 && (n > 0 ==> res.summary.debtFreeDate.Some?))
  {
    var plan := Reallocate(rank, TotalAvailable(debts, extraPayment));
    var fin := RunFrom(InitialState(debts), 0, maxMonths, plan);
    assert LastBalanceOwed(fin);
    RetiredFacts(fin);
  }

  /** The final debts they report: one per debt, each keeping its id and
      name; one that started retired is reported as it was, one that
      started active ends active or paid, at zero if paid. */
  lemma SimulationFinalDebts(debts: seq<SimpleDebtRec>, extraPayment: real, rank: Ranking, maxMonths: int)
    ensures var res := Simulation(debts, extraPayment, rank, maxMonths);
      && |res.finalDebts| == |debts|
      && (forall j :: 0 <= j < |debts| ==>
            var f := res.finalDebts[j];
            && f.id == debts[j].id && f.name == debts[j].name
            && (IsInactive(debts[j]) ==> f.finalBalance == debts[j].principal && f.status == debts[j].status)
            && (IsActive(debts[j]) ==> f.status == ACTIVE || f.status == PAID)
            && (IsActive(debts[j]) && f.status == PAID ==> f.finalBalance == 0.0))
  {
    var plan := Reallocate(rank, TotalAvailable(debts, extraPayment));
    FinalDebtFacts(debts, RunFrom(InitialState(debts), 0, maxMonths, plan).debts);
  }

  /** The final debts of a run: each keeps its id and name, one that
      started retired is reported as it was, one that started active ends
      active or paid, at zero if paid. */
  lemma FinalDebtFacts(debts: seq<SimpleDebtRec>, fin: seq<SimpleDebtRec>)
    requires AllEvolve(debts, fin)
    ensures |FinalDebts(fin)| == |debts|
    ensures forall j :: 0 <= j < |debts| ==>
      var f := FinalDebts(fin)[j];
      && f.id == debts[j].id && f.name == debts[j].name
      && (IsInactive(debts[j]) ==> f.finalBalance == debts[j].principal && f.status == debts[j].status)
      && (IsActive(debts[j]) ==> f.status == ACTIVE || f.status == PAID)
      && (IsActive(debts[j]) && f.status == PAID ==> f.finalBalance == 0.0)
  {
    forall j | 0 <= j < |debts| ensures Evolves(debts[j], fin[j]) {
      AllEvolveAt(debts, fin, j);
    }
  }

  /** Once no final debt is active, nothing is owed and, if a month was
      recorded, the run has a debt-free date. */
  lemma RetiredFacts(fin: RunState)
    requires LastBalanceOwed(fin)
    ensures (forall j :: 0 <= j < |FinalDebts(fin.debts)| ==> FinalDebts(fin.debts)[j].status != ACTIVE) ==>
      && ActiveBalance(fin.debts) == 0.0
      && (|fin.results| > 0 ==> DebtFreeDate(fin.results).Some?)
  {
    var fd := FinalDebts(fin.debts);
    if forall j :: 0 <= j < |fd| ==> fd[j].status != ACTIVE {
      forall j | 0 <= j < |fin.debts| ensures !IsActive(fin.debts[j]) {
        assert fd[j].status != ACTIVE;
      }
      NoActiveBalance(fin.debts);
      if |fin.results| > 0 {
        assert FirstSettledMonth(fin.results).Some?;
      }
    }
  }

  /** What `simulate_baseline` promises: an error without debts or without
      a month to run, otherwise at most `maxMonths` months, fewer only once
      every debt is retired, numbered and dated in order, months to zero
      being their number and the totals the sums over them. */
  lemma BaselineFacts(debts: seq<SimpleDebtRec>, extraPayment: real, maxMonths: int)
    ensures var r := BaselineSimulation(debts, extraPayment, maxMonths);
      && (r.Failure? <==> debts == [] || maxMonths <= 0)
      && (r.Failure? ==> r.error == if debts == [] then NO_DEBTS else UNBOUND_LOCAL)
      && (r.Success? ==>
            var res := r.value;
            var n := |res.results|;
            && n <= maxMonths
            && (ActiveIndices(debts) == [] ==> n == 0)
            && (n < maxMonths ==>
                  forall j :: 0 <= j < |res.summary.finalDebts| ==> res.summary.finalDebts[j].status != ACTIVE)
            && Numbered(res.results)
            && res.summary.monthsToZero == n
            && res.summary.totalInterestPaid == Sum(MonthlyInterests(res.results))
            && res.summary.totalPaymentsMade == Sum(MonthlyPayments(res.results))
            && |res.summary.finalDebts| == |debts|
            && res.summary.strategy == "baseline")
  {
    if debts != [] && maxMonths > 0 {
      RunFacts(debts, maxMonths, Baseline(extraPayment));
    }
  }

  // ---------------------------------------------------------------------
  // The month loop on debt objects
  // ---------------------------------------------------------------------

  /** The debt objects hold the debt values, one by one. */
  predicate Mirrors(ws: seq<SimpleDebt>, ds: seq<SimpleDebtRec>)
    reads ws
  {
    |ws| == |ds| && forall k :: 0 <= k < |ws| ==> ws[k].Snap() == ds[k]
  }

  lemma MirrorsSnapshots(ws: seq<SimpleDebt>, ds: seq<SimpleDebtRec>)
    requires Mirrors(ws, ds)
    ensures Snapshots(ws) == ds
  {
  }

  /** `[copy.deepcopy(debt) for debt in self.debts]`: fresh objects holding
      the same values. */
  method CopyDebts(debts: seq<SimpleDebt>) returns (working: seq<SimpleDebt>)
    ensures |working| == |debts|
    ensures forall k :: 0 <= k < |working| ==> fresh(working[k])
    ensures AllDistinct(working)
    ensures Mirrors(working, old(Snapshots(debts)))
  {
    working := [];
    var i := 0;
    while i < |debts|
      invariant 0 <= i <= |debts| && |working| == i
      invariant forall k :: 0 <= k < i ==> fresh(working[k])
      invariant AllDistinct(working)
      invariant forall k :: 0 <= k < i ==> working[k].Snap() == debts[k].Snap()
    {
      var copy := new SimpleDebt.Copy(debts[i]);
      working := working + [copy];
      i := i + 1;
    }
  }

  /** Step 0 on the debt object at `i`. */
  method InterestAt(working: seq<SimpleDebt>, i: nat, p: Pass) returns (q: Pass)
    requires i < |working| && AllDistinct(working) && Mirrors(working, p.debts)
    modifies working[i]
    ensures q == InterestStep(p, i)
    ensures Mirrors(working, q.debts)
  {
    var debt := working[i];
    if debt.status != ACTIVE {
      return p;
    }
    var monthlyInterest := debt.ApplyMonthlyInterest();
    q := Pass(p.debts[i := debt.Snap()], p.totalInterest + monthlyInterest, p.totalPayments,
              p.interestMap[debt.id := monthlyInterest],
              p.record.(interestThisMonth := p.record.interestThisMonth + monthlyInterest));
  }

  /** The step 0 loop over the debts of `order`. */
  method ApplyInterest(working: seq<SimpleDebt>, order: seq<nat>, p: Pass) returns (q: Pass)
    requires AllDistinct(working) && Mirrors(working, p.debts) && Ordering.InRange(order, |working|)
    modifies working
    ensures q == InterestPass(p, order, |order|)
    ensures Mirrors(working, q.debts)
  {
    q := p;
    var k := 0;
    while k < |order|
      invariant 0 <= k <= |order|
      invariant q == InterestPass(p, order, k)
      invariant Mirrors(working, q.debts)
    {
      q := InterestAt(working, order[k], q);
      k := k + 1;
    }
  }

  /** Step 1 on the debt object at `i`. */
  method MinimumAt(working: seq<SimpleDebt>, i: nat, p: Pass) returns (q: Pass)
    requires i < |working| && AllDistinct(working) && Mirrors(working, p.debts)
    modifies working[i]
    ensures q == MinStep(p, i)
    ensures Mirrors(working, q.debts)
  {
    var debt := working[i];
    if debt.status != ACTIVE {
      return p;
    }
    var paymentResult := debt.ApplyPayment(debt.minPayment);
    var record := p.record.(paymentsThisMonth := p.record.paymentsThisMonth + debt.minPayment);
    var totalPayments := p.totalPayments + debt.minPayment;
    var info := DebtInfo(debt.id, debt.name, debt.principal, MapGet(p.interestMap, debt.id),
                         debt.minPayment, debt.status);
    record := record.(debts := record.debts + [info]);
    if debt.status == PAID {
      record := record.(paidOffThisMonth := record.paidOffThisMonth + [debt.name]);
    }
    q := Pass(p.debts[i := debt.Snap()], p.totalInterest, totalPayments, p.interestMap, record);
  }

  /** The step 1 loop over the debts of `order`. */
  method ApplyMinimums(working: seq<SimpleDebt>, order: seq<nat>, p: Pass) returns (q: Pass)
    requires AllDistinct(working) && Mirrors(working, p.debts) && Ordering.InRange(order, |working|)
    modifies working
    ensures q == MinimumPass(p, order, |order|)
    ensures Mirrors(working, q.debts)
  {
    q := p;
    var k := 0;
    while k < |order|
      invariant 0 <= k <= |order|
      invariant q == MinimumPass(p, order, k)
      invariant Mirrors(working, q.debts)
    {
      q := MinimumAt(working, order[k], q);
      k := k + 1;
    }
  }

  /** A payment beyond the minimum to the debt object at `t`, with the
      search loop that updates the month's entry for it. */
  method PayRemainingTo(working: seq<SimpleDebt>, t: nat, amount: real, p: Pass) returns (q: Pass)
    requires t < |working| && AllDistinct(working) && Mirrors(working, p.debts)
    modifies working[t]
    ensures q == PayRemaining(p, t, amount)
    ensures Mirrors(working, q.debts)
  {
    var target := working[t];
    var extraResult := target.ApplyPayment(amount);
    var infos := UpdateDebtInfo(p.record.debts, target.id, target.principal, amount, target.status);
    var record := p.record.(debts := infos, paymentsThisMonth := p.record.paymentsThisMonth + amount);
    var totalPayments := p.totalPayments + amount;
    if target.status == PAID {
      record := record.(paidOffThisMonth := record.paidOffThisMonth + [target.name]);
    }
    q := Pass(p.debts[t := target.Snap()], p.totalInterest, totalPayments, p.interestMap, record);
  }

  /** Step 2 of a reallocating month: the `while remaining_payment > 0`
      loop. */
  method ReallocatePayments(working: seq<SimpleDebt>, rank: Ranking, remaining: real, p: Pass) returns (q: Pass)
    requires AllDistinct(working) && Mirrors(working, p.debts)
    modifies working
    ensures q == Waterfall(p, remaining, rank)
    ensures Mirrors(working, q.debts)
  {
    q := p;
    var remainingPayment := remaining;
    while remainingPayment > 0.0
      invariant Mirrors(working, q.debts)
      invariant Waterfall(q, remainingPayment, rank) == Waterfall(p, remaining, rank)
      decreases ActiveCount(q.debts), if remainingPayment > 0.0 then 1 else 0
    {
      MirrorsSnapshots(working, q.debts);
      var remainingDebts := RankedActive(Snapshots(working), rank);
      if remainingDebts == [] {
        break;
      }
      var t := remainingDebts[0];
      var next := PayRemainingTo(working, t, remainingPayment, q);
      if working[t].status == PAID {
        RetiringLowersActiveCount(q.debts, t, next.debts[t]);
        remainingPayment := working[t].minPayment;
      } else {
        SameStatusKeepsActiveCount(q.debts, t, next.debts[t]);
        remainingPayment := 0.0;
      }
      q := next;
    }
  }

  /** Step 2 of a baseline month: a positive extra to the active debt
      object of highest rate. */
  method ApplyBaselineExtra(working: seq<SimpleDebt>, extra: real, p: Pass) returns (q: Pass)
    requires AllDistinct(working) && Mirrors(working, p.debts)
    modifies working
    ensures q == BaselineExtra(p, extra)
    ensures Mirrors(working, q.debts)
  {
    if extra > 0.0 {
      MirrorsSnapshots(working, p.debts);
      var remainingDebts := RankedActive(Snapshots(working), HighestApr);
      if remainingDebts != [] {
        q := PayRemainingTo(working, remainingDebts[0], extra, p);
        return;
      }
    }
    q := p;
  }

  /** Step 2 on the debt objects, as the plan says. */
  method ApplyExtraStage(working: seq<SimpleDebt>, plan: Plan, p: Pass) returns (q: Pass)
    requires AllDistinct(working) && Mirrors(working, p.debts)
    modifies working
    ensures q == ExtraStage(p, plan)
    ensures Mirrors(working, q.debts)
  {
    match plan {
      case Reallocate(rank, available) =>
        q := ReallocatePayments(working, rank, Pool(p, available), p);
      case Baseline(extra) =>
        q := ApplyBaselineExtra(working, extra, p);
    }
  }

  /** One month of the run on debt objects holding `cur.debts`: the run
      from month `m` on is the run from the next month on. */
  method RunMonth(working: seq<SimpleDebt>, ghost cur: RunState, m: nat, horizon: int, plan: Plan,
                  totalInterest: real, totalPayments: real, results: seq<MonthRecord>, ghost target: RunState)
    returns (st: RunState)
    requires AllDistinct(working) && Mirrors(working, cur.debts)
    requires cur.totalInterest == totalInterest && cur.totalPayments == totalPayments && cur.results == results
    requires m < horizon && ActiveIndices(cur.debts) != []
    requires RunFrom(cur, m, horizon, plan) == target
    modifies working
    ensures Mirrors(working, st.debts) && |st.results| == |results| + 1
    ensures RunFrom(st, m + 1, horizon, plan) == target
  {
    MirrorsSnapshots(working, cur.debts);
    var activeDebts := MonthOrder(Snapshots(working), plan);
    var start := Pass(Snapshots(working), totalInterest, totalPayments, map[], EmptyMonth(m));
    var afterInterest := ApplyInterest(working, activeDebts, start);
    var afterMinimums := ApplyMinimums(working, activeDebts, afterInterest);
    var c := ApplyExtraStage(working, plan, afterMinimums);
    MirrorsSnapshots(working, c.debts);
    var monthData := c.record.(totalBalance := ActiveBalance(Snapshots(working)));
    st := RunState(c.debts, c.totalInterest, c.totalPayments, results + [monthData]);
    MonthFromSteps(cur, m, plan, c);
    RunFromUnfold(cur, m, horizon, plan);
  }

  /** The month loop `for month in range(1, max_months + 1)` on debt objects
      holding `ds0`. `lastMonth` is the loop variable after the loop and
      `anyActive` whether the last month begun found an active debt. */
  method RunMonths(working: seq<SimpleDebt>, ghost ds0: seq<SimpleDebtRec>, maxMonths: int, plan: Plan)
    returns (fin: RunState, lastMonth: int, anyActive: bool)
    requires AllDistinct(working) && Mirrors(working, ds0)
    modifies working
    ensures fin == RunFrom(InitialState(ds0), 0, maxMonths, plan)
    ensures Mirrors(working, fin.debts)
    ensures maxMonths > 0 && !anyActive ==> lastMonth - 1 == |fin.results|
    ensures maxMonths > 0 && anyActive ==> |fin.results| == maxMonths
  {
    var totalInterest, totalPayments := 0.0, 0.0;
    var results: seq<MonthRecord> := [];
    ghost var cur := InitialState(ds0);
    ghost var target := RunFrom(cur, 0, maxMonths, plan);
    anyActive, lastMonth := false, 0;
    var month := 0;
    while month < maxMonths
      invariant 0 <= month && |results| == month && (month <= maxMonths || month == 0)
      invariant cur.totalInterest == totalInterest && cur.totalPayments == totalPayments && cur.results == results
      invariant Mirrors(working, cur.debts)
      invariant RunFrom(cur, month, maxMonths, plan) == target
      invariant month > 0 ==> anyActive
      decreases maxMonths - month
    {
      lastMonth := month + 1;
      MirrorsSnapshots(working, cur.debts);
      anyActive := ActiveIndices(Snapshots(working)) != [];
      if !anyActive {
        break;
      }
      var next := RunMonth(working, cur, month, maxMonths, plan, totalInterest, totalPayments, results, target);
      totalInterest, totalPayments, results := next.totalInterest, next.totalPayments, next.results;
      cur := next;
      month := month + 1;
    }
    MirrorsSnapshots(working, cur.debts);
    fin := RunState(Snapshots(working), totalInterest, totalPayments, results);
    RunFromDone(fin, month, maxMonths, plan);
  }

  /** The `final_debts` list: one entry per debt object, in list order. */
  method ReportFinalDebts(working: seq<SimpleDebt>, ghost ds: seq<SimpleDebtRec>) returns (r: seq<FinalDebt>)
    requires Mirrors(working, ds)
    ensures r == FinalDebts(ds)
  {
    r := [];
    var i := 0;
    while i < |working|
      invariant 0 <= i <= |working|
      invariant r == FinalDebts(ds[..i])
    {
      var debt := working[i];
      assert ds[..i + 1] == ds[..i] + [ds[i]];
      r := r + [FinalDebt(debt.id, debt.name, debt.principal, debt.totalInterestPaid, debt.monthsPaid, debt.status)];
      i := i + 1;
    }
    assert ds[..i] == ds;
  }

  /** The engine: the list of debts it was given. */
  class SimpleSimulationEngine {
    var debts: seq<SimpleDebt>

    constructor ()
      ensures debts == []
    {
      debts := [];
    }

    /** `add_debt`: appends the debt object itself, not a copy. */
    method AddDebt(debt: SimpleDebt)
      modifies this
      ensures debts == old(debts) + [debt]
    {
      debts := debts + [debt];
    }

    /** The body `simulate_avalanche` and `simulate_snowball` share: copies
        of the debts are run month by month with the budget fixed at the
        start, then summarised; the engine's own debts are left as they
        were. */
    method SimulateRanked(extraPayment: real, maxMonths: int, rank: Ranking) returns (r: SimpleResult)
      ensures r == Simulation(old(Snapshots(debts)), extraPayment, rank, maxMonths)
    {
      ghost var given := Snapshots(debts);
      var working := CopyDebts(debts);
      var totalAvailablePayment := TotalAvailable(Snapshots(debts), extraPayment);
      var fin, _, _ := RunMonths(working, given, maxMonths, Reallocate(rank, totalAvailablePayment));
      SimulationOfRun(given, extraPayment, rank, maxMonths, fin);
      var finalDebts := ReportFinalDebts(working, fin.debts);
      var debtFreeDate := FindDebtFreeDate(fin.results);
      MirrorsSnapshots(working, fin.debts);
      var summary := SimpleSummary(fin.totalInterest, fin.totalPayments, |fin.results|, debtFreeDate,
                                   ActiveBalance(Snapshots(working)));
      r := SimpleResult(fin.results, summary, finalDebts);
    }

    /** `simulate_avalanche`: highest rate first. */
    method SimulateAvalanche(extraPayment: real, maxMonths: int) returns (r: SimpleResult)
      ensures r == Simulation(Snapshots(debts), extraPayment, HighestApr, maxMonths)
    {
      r := SimulateRanked(extraPayment, maxMonths, HighestApr);
    }

    /** `simulate_snowball`: smallest balance first. */
    method SimulateSnowball(extraPayment: real, maxMonths: int) returns (r: SimpleResult)
      ensures r == Simulation(Snapshots(debts), extraPayment, SmallestBalance, maxMonths)
    {
      r := SimulateRanked(extraPayment, maxMonths, SmallestBalance);
    }

    /** `simulate_baseline`: minimums in list order and the extra to the
        debt of highest rate, with no reallocation; months to zero is read
        from the loop's last state. */
    method SimulateBaseline(extraPayment: real, maxMonths: int) returns (r: Result<BaselineResult>)
      ensures r == BaselineSimulation(old(Snapshots(debts)), extraPayment, maxMonths)
    {
      if debts == [] {
        return Failure(NO_DEBTS);
      }
      ghost var given := Snapshots(debts);
      var working := CopyDebts(debts);
      var fin, month, anyActive := RunMonths(working, given, maxMonths, Baseline(extraPayment));
      var finalDebts := ReportFinalDebts(working, fin.debts);
      if maxMonths <= 0 {
        return Failure(UNBOUND_LOCAL);
      }
      BaselineOfRun(given, extraPayment, maxMonths, fin);
      var monthsToZero := if !anyActive then month - 1 else maxMonths;
      r := Success(BaselineResult(fin.results,
        BaselineSummary(monthsToZero, fin.totalInterest, fin.totalPayments, finalDebts, "baseline")));
    }

    /** The live `compare_strategies`: both runs at the default horizon and
        their differences. */
    method CompareStrategies(extraPayment: real) returns (r: Result<StrategyComparison>)
      ensures r == Comparison(Snapshots(debts), extraPayment)
    {
      if debts == [] {
        return Failure(NO_DEBTS);
      }
      var avalancheResult := SimulateAvalanche(extraPayment, DEFAULT_MAX_MONTHS);
      var snowballResult := SimulateSnowball(extraPayment, DEFAULT_MAX_MONTHS);
      r := Success(CompareRuns(avalancheResult, snowballResult));
    }

    /** `calculate_extra_payment_impact`: replaces the engine's debts, then
        runs the named strategy with the base extra and with the base plus
        the additional extra. */
    method CalculateExtraPaymentImpact(debts: seq<SimpleDebt>, baseExtra: real, additionalExtra: real,
                                       strategy: string)
      returns (r: SimpleImpact)
      modifies this
      ensures this.debts == debts
      ensures r == ExtraImpact(Snapshots(debts), baseExtra, additionalExtra, strategy)
    {
      this.debts := debts;
      var baseResult: SimpleResult;
      if strategy == "avalanche" {
        baseResult := SimulateAvalanche(baseExtra, DEFAULT_MAX_MONTHS);
      } else {
        baseResult := SimulateSnowball(baseExtra, DEFAULT_MAX_MONTHS);
      }
      var totalExtra := TotalExtra(baseExtra, additionalExtra);
      var enhancedResult: SimpleResult;
      if strategy == "avalanche" {
        enhancedResult := SimulateAvalanche(totalExtra, DEFAULT_MAX_MONTHS);
      } else {
        enhancedResult := SimulateSnowball(totalExtra, DEFAULT_MAX_MONTHS);
      }
      r := ImpactOfRuns(baseResult, enhancedResult, additionalExtra);
    }
  }
}
