/** The new simulation engine: a `Debt` that charges its month of interest
    inside `apply_payment`, and a `SimulationEngine` holding a list of debts
    that it runs month by month under avalanche or snowball.

    Each month the active debts are ranked once, at the start of the month:
    the first of them pays its minimum plus the whole extra, every other
    one pays exactly its minimum, and a minimum freed by a payoff is not
    passed on to anyone. The mutable operations are proved against
    specification functions over value records (`NewDebtRec`, `Pass`,
    `RunState`); the lemmas state what a month and a run guarantee. */
module NewSimulationEngine {
  import opened Common
  import Ordering

  // ---------------------------------------------------------------------
  // A debt as a value
  // ---------------------------------------------------------------------

  /** The two statuses this engine gives a debt: `'active'` from the
      start, `'paid'` once a payment clears it. */
  datatype DebtStatus = Active | Paid
  {
    function Name(): (r: string)
      ensures r == ACTIVE <==> this == Active
      ensures r == PAID <==> this == Paid
    {
      assert |ACTIVE| != |PAID|;
      match this
      case Active => ACTIVE
      case Paid => PAID
    }
  }

  datatype NewDebtRec = NewDebtRec(
    id: int,
    name: string,
    principal: real,
    apr: real,
    minPayment: real,
    compounding: string,
    status: DebtStatus,
    monthsPaid: int,
    totalInterestPaid: real)

  predicate IsActive(d: NewDebtRec)
  {
    d.status == Active
  }

  /** A new debt is active and has paid nothing yet. */
  function NewDebt(id: int, name: string, principal: real, apr: real, minPayment: real, compounding: string)
    : NewDebtRec
  {
    NewDebtRec(id, name, principal, apr, minPayment, compounding, Active, 0, 0.0)
  }

  /** `calculate_monthly_interest`: a twelfth of the annual rate under
      monthly compounding, and nothing under any other rule. */
  function MonthlyInterest(d: NewDebtRec): (r: real)
    ensures d.compounding == "monthly" ==> 12.0 * r == d.principal * d.apr
    ensures d.compounding != "monthly" ==> r == 0.0
    ensures d.principal >= 0.0 && d.apr >= 0.0 ==> r >= 0.0
  {
    if d.compounding == "monthly" then d.principal * (d.apr / 12.0) else 0.0
  }

  /** Daily compounding, which the other engine supports, charges nothing
      here: it falls in the `else` branch. */
  lemma DailyCompoundingChargesNothing(d: NewDebtRec)
    requires d.compounding == "daily"
    ensures MonthlyInterest(d) == 0.0
  {
  }

  /** The dictionary `apply_payment` returns; `paidOff` is absent for an
      inactive debt. */
  datatype NewPaymentResult = NewPaymentResult(
    principalPayment: real,
    interestPayment: real,
    remaining: real,
    paidOff: Option<bool>)

  /** `apply_payment`: a no-op on an inactive debt; an active debt first
      adds its month of interest to its balance, then pays. `PayFacts`
      states what that means. */
  function Pay(d: NewDebtRec, payment: real): (NewDebtRec, NewPaymentResult)
  {
    if !IsActive(d) then
      (d, NewPaymentResult(0.0, 0.0, d.principal, None))
    else
      var interest := MonthlyInterest(d);
      var balance := d.principal + interest;
      if payment >= balance then
        var paid := d.(principal := 0.0, status := Paid, monthsPaid := d.monthsPaid + 1,
                       totalInterestPaid := d.totalInterestPaid + interest);
        (paid, NewPaymentResult(balance - interest, interest, 0.0, Some(true)))
      else
        var rest := d.(principal := balance - payment, monthsPaid := d.monthsPaid + 1,
                       totalInterestPaid := d.totalInterestPaid + interest);
        (rest, NewPaymentResult(payment - interest, interest, rest.principal, Some(false)))
  }

  /** What `apply_payment` does. An inactive debt is left as it is and
      reports no payoff. An active debt is charged its month of interest; a
      payment that covers balance and interest pays it off at exactly zero,
      any other payment lowers the charged balance by exactly the payment
      and leaves it positive. Either way only the balance, status and
      history change, the month's interest is counted as interest paid, one
      more month is counted, and the principal part reported is the payment
      less the interest (the whole balance on a payoff). */
  lemma PayFacts(d: NewDebtRec, payment: real)
    ensures var r := Pay(d, payment);
      && (!IsActive(d) ==> r == (d, NewPaymentResult(0.0, 0.0, d.principal, None)))
      && (IsActive(d) ==>
        var interest := MonthlyInterest(d);
        && r.0 == d.(principal := r.0.principal, status := r.0.status, monthsPaid := d.monthsPaid + 1,
                     totalInterestPaid := d.totalInterestPaid + interest)
        && r.1.interestPayment == interest
        && (r.0.status == Paid <==> payment >= d.principal + interest)
        && (r.0.status == Paid ==> r.0.principal == 0.0 && r.1.principalPayment == d.principal)
        && (r.0.status != Paid ==>
              && r.0.status == Active
              && r.0.principal == d.principal + interest - payment
              && r.0.principal > 0.0
              && r.1.principalPayment == payment - interest)
        && r.1.remaining == r.0.principal
        && r.1.paidOff == Some(r.0.status == Paid))
  {
  }

  /** A payment below the month's interest reports a negative principal
      part, and the balance grows by the difference. */
  lemma PaymentBelowInterest(d: NewDebtRec, payment: real)
    requires IsActive(d) && d.principal >= 0.0
    requires payment < MonthlyInterest(d)
    ensures Pay(d, payment).1.principalPayment < 0.0
    ensures Pay(d, payment).0.principal > d.principal
  {
  }

  /** An active debt never owes a negative balance after a payment, and it
      owes nothing exactly when it is paid off. */
  lemma PayNeverNegative(d: NewDebtRec, payment: real)
    requires IsActive(d)
    ensures Pay(d, payment).0.principal >= 0.0
    ensures Pay(d, payment).0.principal == 0.0 <==> Pay(d, payment).0.status == Paid
  {
  }

  /** The terms a run never changes. */
  predicate SameTerms(a: NewDebtRec, b: NewDebtRec)
  {
    && a.id == b.id && a.name == b.name && a.apr == b.apr && a.minPayment == b.minPayment
    && a.compounding == b.compounding
  }

  /** How a debt may change during a run: not at all, or, if it was
      active, only its balance and history, ending active or paid, owing
      nothing negative, and at zero once paid. */
  predicate Evolves(d0: NewDebtRec, d1: NewDebtRec)
  {
    || d1 == d0
    || (&& IsActive(d0) && SameTerms(d0, d1)
        && (d1.status == Active || d1.status == Paid)
        && d1.principal >= 0.0
        && (d1.status == Paid ==> d1.principal == 0.0))
  }

  lemma EvolvesTransitive(a: NewDebtRec, b: NewDebtRec, c: NewDebtRec)
    requires Evolves(a, b) && Evolves(b, c)
    ensures Evolves(a, c)
  {
  }

  /** `Evolves`, position by position, written recursively so that the
      verifier unfolds it only where a proof asks for it. */
  predicate AllEvolve(a: seq<NewDebtRec>, b: seq<NewDebtRec>)
    decreases |a|
  {
    && |a| == |b|
    && (a == [] || (AllEvolve(a[..|a| - 1], b[..|b| - 1]) && Evolves(a[|a| - 1], b[|b| - 1])))
  }

  lemma {:induction false} AllEvolveAt(a: seq<NewDebtRec>, b: seq<NewDebtRec>, j: nat)
    requires AllEvolve(a, b) && j < |a|
    ensures |b| == |a| && Evolves(a[j], b[j])
    decreases |a|
  {
    var n := |a| - 1;
    if j < n {
      AllEvolveAt(a[..n], b[..n], j);
    }
  }

  lemma {:induction false} AllEvolveIntro(a: seq<NewDebtRec>, b: seq<NewDebtRec>)
    requires |a| == |b| && forall j :: 0 <= j < |a| ==> Evolves(a[j], b[j])
    ensures AllEvolve(a, b)
    decreases |a|
  {
    if a != [] {
      var n := |a| - 1;
      AllEvolveIntro(a[..n], b[..n]);
    }
  }

  lemma AllEvolveRefl(a: seq<NewDebtRec>)
    ensures AllEvolve(a, a)
  {
    AllEvolveIntro(a, a);
  }

  lemma AllEvolveTransitive(a: seq<NewDebtRec>, b: seq<NewDebtRec>, c: seq<NewDebtRec>)
    requires AllEvolve(a, b) && AllEvolve(b, c)
    ensures AllEvolve(a, c)
  {
    forall j | 0 <= j < |a| ensures Evolves(a[j], c[j]) {
      AllEvolveAt(a, b, j);
      AllEvolveAt(b, c, j);
      EvolvesTransitive(a[j], b[j], c[j]);
    }
    AllEvolveIntro(a, c);
  }

  // ---------------------------------------------------------------------
  // Which debts are active, and in which order they are paid
  // ---------------------------------------------------------------------

  /** `[debt for debt in working_debts if debt.status == 'active']`, as
      positions in list order. */
  function ActiveIndices(ds: seq<NewDebtRec>): (r: seq<nat>)
    ensures forall k :: 0 <= k < |r| ==> r[k] < |ds| && IsActive(ds[r[k]])
    ensures forall j :: 0 <= j < |ds| && IsActive(ds[j]) ==> j in r
    ensures forall a, b :: 0 <= a < b < |r| ==> r[a] < r[b]
    decreases |ds|
  {
    if ds == [] then []
    else
      var front := ActiveIndices(ds[..|ds| - 1]);
      if IsActive(ds[|ds| - 1]) then front + [|ds| - 1] else front
  }

  /** The two orders the engine sorts the active debts in. */
  datatype Ranking = Avalanche | Snowball

  /** What a run is asked to do: the order, and the extra the first debt
      of that order pays every month. */
  datatype Plan = Plan(rank: Ranking, extra: real)

  /** The sort key, ascending: `sort(key=apr, reverse=True)` is a stable
      ascending sort on the negated rate. */
  function RankKey(d: NewDebtRec, rank: Ranking): real
  {
    match rank
    case Avalanche => -d.apr
    case Snowball => d.principal
  }

  function RankKeys(ds: seq<NewDebtRec>, rank: Ranking): (r: seq<real>)
    ensures |r| == |ds|
    ensures forall k :: 0 <= k < |ds| ==> r[k] == RankKey(ds[k], rank)
  {
    seq(|ds|, k requires 0 <= k < |ds| => RankKey(ds[k], rank))
  }

  /** The active debts after `active_debts.sort(...)`: each active debt
      exactly once, and a debt before another has a smaller key, or the same
      key and an earlier place in the list. */
  function RankedActive(ds: seq<NewDebtRec>, rank: Ranking): (r: seq<nat>)
    ensures Ordering.InRange(r, |ds|)
    ensures forall k :: 0 <= k < |r| ==> IsActive(ds[r[k]])
    ensures forall j :: 0 <= j < |ds| && IsActive(ds[j]) ==> j in r
    ensures forall p, q :: 0 <= p < q < |r| ==> Ordering.Precedes(RankKeys(ds, rank), r[p], r[q])
    ensures multiset(r) == multiset(ActiveIndices(ds))
  {
    var act := ActiveIndices(ds);
    assert Ordering.InRange(act, |ds|);
    Ordering.SortedSubsetMembers(RankKeys(ds, rank), act);
    Ordering.SortedSubset(RankKeys(ds, rank), act)
  }

  /** The ranked list names no debt twice. */
  lemma RankedDistinct(ds: seq<NewDebtRec>, rank: Ranking)
    ensures AllDistinct(RankedActive(ds, rank))
  {
    var r := RankedActive(ds, rank);
    var keys := RankKeys(ds, rank);
    forall p, q | 0 <= p < q < |r| ensures r[p] != r[q] {
      assert Ordering.Precedes(keys, r[p], r[q]);
    }
  }

  /** The debt that gets the extra: for avalanche an active debt of
      highest rate, for snowball an active debt of smallest balance, and on
      a tie the one earliest in the list. */
  lemma RankedHeadIsBest(ds: seq<NewDebtRec>, rank: Ranking)
    requires RankedActive(ds, rank) != []
    ensures var t := RankedActive(ds, rank)[0];
      && t < |ds| && IsActive(ds[t])
      && forall j :: 0 <= j < |ds| && IsActive(ds[j]) ==>
           match rank
           case Avalanche => ds[j].apr <= ds[t].apr && (j < t ==> ds[j].apr < ds[t].apr)
           case Snowball => ds[t].principal <= ds[j].principal && (j < t ==> ds[t].principal < ds[j].principal)
  {
    var r := RankedActive(ds, rank);
    var keys := RankKeys(ds, rank);
    forall j | 0 <= j < |ds| && IsActive(ds[j]) ensures keys[r[0]] <= keys[j] && (j < r[0] ==> keys[r[0]] < keys[j]) {
      var q :| 0 <= q < |r| && r[q] == j;
      if q > 0 {
        assert Ordering.Precedes(keys, r[0], r[q]);
      }
    }
  }

  /** There is someone to pay exactly when some debt is active. */
  lemma RankedActiveEmpty(ds: seq<NewDebtRec>, rank: Ranking)
    ensures RankedActive(ds, rank) == [] <==> ActiveIndices(ds) == []
  {
    var r := RankedActive(ds, rank);
    if r != [] {
      assert r[0] in multiset(ActiveIndices(ds));
    }
    if ActiveIndices(ds) != [] {
      assert ActiveIndices(ds)[0] in multiset(r);
    }
  }

  /** The minimums of the debts at the listed positions, in that order. */
  function MinsAt(ds: seq<NewDebtRec>, pos: seq<nat>): (r: seq<real>)
    requires Ordering.InRange(pos, |ds|)
    ensures |r| == |pos| && forall k :: 0 <= k < |pos| ==> r[k] == ds[pos[k]].minPayment
  {
    seq(|pos|, k requires 0 <= k < |pos| => ds[pos[k]].minPayment)
  }

  /** `sum(debt.min_payment for debt in active_debts)`: the minimums of the
      debts active at the start of the month. */
  function ActiveMinimums(ds: seq<NewDebtRec>): real
  {
    var act := ActiveIndices(ds);
    assert Ordering.InRange(act, |ds|);
    Sum(MinsAt(ds, act))
  }

  /** Summing the minimums in strategy order or in list order gives the same. */
  lemma RankedMinimums(ds: seq<NewDebtRec>, rank: Ranking)
    ensures Sum(MinsAt(ds, RankedActive(ds, rank))) == ActiveMinimums(ds)
  {
    var r := RankedActive(ds, rank);
    var act := ActiveIndices(ds);
    assert Ordering.InRange(act, |ds|);
    var mins := MinPayments(ds);
    Ordering.PickPermutation(mins, r, act);
    assert Ordering.Pick(mins, r) == MinsAt(ds, r);
    assert Ordering.Pick(mins, act) == MinsAt(ds, act);
    SumPermutation(MinsAt(ds, r), MinsAt(ds, act));
  }

  function MinPayments(ds: seq<NewDebtRec>): (r: seq<real>)
    ensures |r| == |ds| && forall k :: 0 <= k < |ds| ==> r[k] == ds[k].minPayment
  {
    seq(|ds|, k requires 0 <= k < |ds| => ds[k].minPayment)
  }

  // ---------------------------------------------------------------------
  // One month, as values
  // ---------------------------------------------------------------------

  /** The state inside one month: the working debts, the running totals
      and the month's record. */
  datatype Pass = Pass(
    debts: seq<NewDebtRec>,
    totalInterest: real,
    totalPayments: real,
    record: MonthRecord)

  /** What the `k`-th debt of the month's order pays: its minimum, plus the
      extra when it is the first debt of the order (`debt ==
      active_debts[0]`). */
  function PaymentFor(d: NewDebtRec, order: seq<nat>, k: nat, extra: real): real
    requires k < |order|
  {
    if order[k] == order[0] then d.minPayment + extra else d.minPayment
  }

  /** The entry the month records for a debt that pays `payment`: its id
      and name, its balance and status after the payment, the interest
      charged and the payment made. */
  function Entry(d: NewDebtRec, payment: real): DebtInfo
  {
    var paid := Pay(d, payment);
    DebtInfo(d.id, d.name, paid.0.principal, paid.1.interestPayment, payment, paid.0.status.Name())
  }

  /** The payment loop at the debt at position `i`: nothing if it is not
      active; otherwise its month of interest is counted, it pays `payment`
      through `apply_payment`, and the month records the payment, an entry
      for the debt and its name if that paid it off. */
  function PayStep(p: Pass, i: nat, payment: real): (r: Pass)
    requires i < |p.debts|
    ensures |r.debts| == |p.debts|
    ensures forall j {:trigger r.debts[j]} :: 0 <= j < |p.debts| && j != i ==> r.debts[j] == p.debts[j]
    ensures r.totalInterest - r.record.interestThisMonth == p.totalInterest - p.record.interestThisMonth
    ensures r.totalPayments - r.record.paymentsThisMonth == p.totalPayments - p.record.paymentsThisMonth
    ensures r.record.month == p.record.month && r.record.dateOffsetDays == p.record.dateOffsetDays
    ensures !IsActive(p.debts[i]) ==> r == p
    ensures IsActive(p.debts[i]) ==>
      && r.debts[i] == Pay(p.debts[i], payment).0
      && r.record.paymentsThisMonth == p.record.paymentsThisMonth + payment
      && r.record.interestThisMonth == p.record.interestThisMonth + MonthlyInterest(p.debts[i])
      && r.record.debts == p.record.debts + [Entry(p.debts[i], payment)]
  {
    var d := p.debts[i];
    if !IsActive(d) then p
    else
      var interest := MonthlyInterest(d);
      var paid := Pay(d, payment);
      Pass(p.debts[i := paid.0], p.totalInterest + interest, p.totalPayments + payment,
           p.record.(interestThisMonth := p.record.interestThisMonth + interest,
                     paymentsThisMonth := p.record.paymentsThisMonth + payment,
                     debts := p.record.debts + [Entry(d, payment)],
                     paidOffThisMonth := p.record.paidOffThisMonth + (if paid.0.status == Paid then [d.name] else [])))
  }

  /** The payment loop over the first `k` debts of `order`. */
  function MonthPass(p: Pass, order: seq<nat>, k: nat, extra: real): (r: Pass)
    requires k <= |order| && Ordering.InRange(order, |p.debts|)
    ensures |r.debts| == |p.debts|
  {
    if k == 0 then p
    else
      var q := MonthPass(p, order, k - 1, extra);
      var i := order[k - 1];
      PayStep(q, i, PaymentFor(q.debts[i], order, k - 1, extra))
  }

  /** A month's payments change debts only as `Evolves` allows. */
  lemma {:induction false} MonthPassEvolves(p: Pass, order: seq<nat>, k: nat, extra: real)
    requires k <= |order| && Ordering.InRange(order, |p.debts|)
    ensures AllEvolve(p.debts, MonthPass(p, order, k, extra).debts)
  {
    if k == 0 {
      AllEvolveRefl(p.debts);
    } else {
      MonthPassEvolves(p, order, k - 1, extra);
      var q := MonthPass(p, order, k - 1, extra);
      var r := MonthPass(p, order, k, extra);
      var i := order[k - 1];
      forall j | 0 <= j < |q.debts| ensures Evolves(q.debts[j], r.debts[j]) {
        if j == i && IsActive(q.debts[i]) {
          PayNeverNegative(q.debts[i], PaymentFor(q.debts[i], order, k - 1, extra));
        }
      }
      AllEvolveIntro(q.debts, r.debts);
      AllEvolveTransitive(p.debts, q.debts, r.debts);
    }
  }

  /** A month's payments keep its number and date, and the totals grow
      with the month. */
  lemma {:induction false} MonthPassKeeps(p: Pass, order: seq<nat>, k: nat, extra: real)
    requires k <= |order| && Ordering.InRange(order, |p.debts|)
    ensures var r := MonthPass(p, order, k, extra);
      && PassedTotals(p, r)
      && r.record.month == p.record.month && r.record.dateOffsetDays == p.record.dateOffsetDays
  {
    if k > 0 {
      MonthPassKeeps(p, order, k - 1, extra);
    }
  }

  /** What the month's order asks each of its debts to pay: the minimum,
      and the first of them the extra on top. */
  function Shares(ds: seq<NewDebtRec>, order: seq<nat>, extra: real): (r: seq<real>)
    requires Ordering.InRange(order, |ds|)
    ensures |r| == |order|
    ensures forall q {:trigger r[q]} :: 0 <= q < |order| ==> r[q] == ds[order[q]].minPayment + (if q == 0 then extra else 0.0)
  {
    seq(|order|, q requires 0 <= q < |order| => ds[order[q]].minPayment + (if q == 0 then extra else 0.0))
  }

  /** The month's interest on each debt of the order. */
  function InterestsAt(ds: seq<NewDebtRec>, order: seq<nat>): (r: seq<real>)
    requires Ordering.InRange(order, |ds|)
    ensures |r| == |order| && forall q {:trigger r[q]} :: 0 <= q < |order| ==> r[q] == MonthlyInterest(ds[order[q]])
  {
    seq(|order|, q requires 0 <= q < |order| => MonthlyInterest(ds[order[q]]))
  }

  /** The entries of the first `k` debts of the order, each paying its share. */
  function Entries(ds: seq<NewDebtRec>, order: seq<nat>, k: nat, extra: real): (r: seq<DebtInfo>)
    requires k <= |order| && Ordering.InRange(order, |ds|)
    ensures |r| == k
    ensures forall q {:trigger r[q]} :: 0 <= q < k ==> r[q] == Entry(ds[order[q]], Shares(ds, order, extra)[q])
  {
    seq(k, q requires 0 <= q < k => Entry(ds[order[q]], Shares(ds, order, extra)[q]))
  }

  /** Each debt of the order once it has paid its share. */
  function Settled(ds: seq<NewDebtRec>, order: seq<nat>, extra: real): (r: seq<NewDebtRec>)
    requires Ordering.InRange(order, |ds|)
    ensures |r| == |order|
    ensures forall q {:trigger r[q]} :: 0 <= q < |order| ==> r[q] == Pay(ds[order[q]], Shares(ds, order, extra)[q]).0
  {
    seq(|order|, q requires 0 <= q < |order| => Pay(ds[order[q]], Shares(ds, order, extra)[q]).0)
  }

  /** The debts the first `k` debts of the order have not reached are
      untouched. */
  predicate Untouched(ds: seq<NewDebtRec>, order: seq<nat>, k: nat, rd: seq<NewDebtRec>)
    requires k <= |order| && |rd| == |ds|
  {
    forall j :: 0 <= j < |ds| && j !in Reached(order, k) ==> rd[j] == ds[j]
  }

  /** Each of the first `k` debts of the order has paid exactly its share,
      through one `apply_payment`. */
  predicate PaidAlong(ds: seq<NewDebtRec>, order: seq<nat>, k: nat, extra: real, rd: seq<NewDebtRec>)
    requires k <= |order| && Ordering.InRange(order, |ds|) && |rd| == |ds|
  {
    forall q {:trigger rd[order[q]]} {:trigger Settled(ds, order, extra)[q]} ::
      0 <= q < k ==> rd[order[q]] == Settled(ds, order, extra)[q]
  }

  /** The month's record after the first `k` debts of the order have paid:
      one entry each, in order, and the sums of their shares and of their
      interest. */
  predicate PassedRecord(p: Pass, order: seq<nat>, k: nat, extra: real, rec: MonthRecord)
    requires k <= |order| && Ordering.InRange(order, |p.debts|)
  {
    && rec.debts == p.record.debts + Entries(p.debts, order, k, extra)
    && rec.paymentsThisMonth == p.record.paymentsThisMonth + Sum(Shares(p.debts, order, extra)[..k])
    && rec.interestThisMonth == p.record.interestThisMonth + Sum(InterestsAt(p.debts, order)[..k])
    && rec.month == p.record.month && rec.dateOffsetDays == p.record.dateOffsetDays
  }

  /** The running totals grow with the month. */
  predicate PassedTotals(p: Pass, r: Pass)
  {
    && r.totalInterest - r.record.interestThisMonth == p.totalInterest - p.record.interestThisMonth
    && r.totalPayments - r.record.paymentsThisMonth == p.totalPayments - p.record.paymentsThisMonth
  }

  lemma SumPrefixStep(xs: seq<real>, k: nat)
    requires 0 < k <= |xs|
    ensures Sum(xs[..k]) == Sum(xs[..k - 1]) + xs[k - 1]
  {
    assert xs[..k][..k - 1] == xs[..k - 1];
  }

  /** The positions the first `k` debts of an order name. */
  function Reached(order: seq<nat>, k: nat): set<nat>
    requires k <= |order|
  {
    if k == 0 then {} else Reached(order, k - 1) + {order[k - 1]}
  }

  lemma NotInPrefix(order: seq<nat>, k: nat)
    requires AllDistinct(order) && k < |order|
    ensures order[k] !in Reached(order, k)
  {
    forall x | x in Reached(order, k) ensures x != order[k] {
      ReachedListed(order, k, x);
      var a :| 0 <= a < k && order[..k][a] == x;
      assert order[a] == x;
    }
  }

  /** What the first `k` debts of an order have reached, they list. */
  lemma {:induction false} ReachedListed(order: seq<nat>, k: nat, x: nat)
    requires k <= |order| && x in Reached(order, k)
    ensures x in order[..k]
  {
    if x != order[k - 1] {
      ReachedListed(order, k - 1, x);
      assert order[..k - 1] == order[..k][..k - 1];
    } else {
      assert order[..k][k - 1] == x;
    }
  }

  /** The share of the `k`-th debt of an order that names each debt once is
      what `PaymentFor` charges it. */
  lemma PaymentForShare(ds: seq<NewDebtRec>, order: seq<nat>, k: nat, extra: real)
    requires Ordering.InRange(order, |ds|) && AllDistinct(order) && k < |order|
    ensures PaymentFor(ds[order[k]], order, k, extra) == Shares(ds, order, extra)[k]
  {
    if k != 0 {
      assert order[k] != order[0];
    }
  }

  lemma StepRecord(p: Pass, order: seq<nat>, k: nat, extra: real, a: MonthRecord, b: MonthRecord)
    requires k < |order| && Ordering.InRange(order, |p.debts|)
    requires PassedRecord(p, order, k, extra, a)
    requires var d := p.debts[order[k]];
      var share := Shares(p.debts, order, extra)[k];
      && b.debts == a.debts + [Entry(d, share)]
      && b.paymentsThisMonth == a.paymentsThisMonth + share
      && b.interestThisMonth == a.interestThisMonth + MonthlyInterest(d)
      && b.month == a.month && b.dateOffsetDays == a.dateOffsetDays
    ensures PassedRecord(p, order, k + 1, extra, b)
  {
    var sh := Shares(p.debts, order, extra);
    var ints := InterestsAt(p.debts, order);
    assert b.debts == p.record.debts + Entries(p.debts, order, k + 1, extra) by {
      var es := Entries(p.debts, order, k + 1, extra);
      assert es == Entries(p.debts, order, k, extra) + [es[k]];
    }
    assert b.paymentsThisMonth == p.record.paymentsThisMonth + Sum(sh[..k + 1]) by {
      SumPrefixStep(sh, k + 1);
    }
    assert b.interestThisMonth == p.record.interestThisMonth + Sum(ints[..k + 1]) by {
      SumPrefixStep(ints, k + 1);
    }
  }

  /** One more debt of such an order: it pays its share, starting from
      the value it had at the start of the month. */
  lemma MonthPassStepDebts(p: Pass, order: seq<nat>, k: nat, extra: real)
    requires k < |order| && Ordering.InRange(order, |p.debts|)
    requires AllDistinct(order) && IsActive(p.debts[order[k]])
    requires MonthPass(p, order, k, extra).debts[order[k]] == p.debts[order[k]]
    ensures var q := MonthPass(p, order, k, extra);
      var r := MonthPass(p, order, k + 1, extra);
      var i := order[k];
      && r.debts[i] == Settled(p.debts, order, extra)[k]
      && (forall j {:trigger r.debts[j]} :: 0 <= j < |q.debts| && j != i ==> r.debts[j] == q.debts[j])
  {
    PaymentForShare(p.debts, order, k, extra);
  }

  lemma MonthPassStep(p: Pass, order: seq<nat>, k: nat, extra: real)
    requires k < |order| && Ordering.InRange(order, |p.debts|)
    requires AllDistinct(order) && IsActive(p.debts[order[k]])
    requires MonthPass(p, order, k, extra).debts[order[k]] == p.debts[order[k]]
    ensures var q := MonthPass(p, order, k, extra);
      var r := MonthPass(p, order, k + 1, extra);
      var i := order[k];
      var share := Shares(p.debts, order, extra)[k];
      && r.record.debts == q.record.debts + [Entry(p.debts[i], share)]
      && r.record.paymentsThisMonth == q.record.paymentsThisMonth + share
      && r.record.interestThisMonth == q.record.interestThisMonth + MonthlyInterest(p.debts[i])
      && r.record.month == q.record.month && r.record.dateOffsetDays == q.record.dateOffsetDays
  {
    PaymentForShare(p.debts, order, k, extra);
  }

  /** The payment loop leaves the debts it has not reached untouched. */
  lemma {:induction false} MonthPassUntouched(p: Pass, order: seq<nat>, k: nat, extra: real)
    requires k <= |order| && Ordering.InRange(order, |p.debts|)
    ensures Untouched(p.debts, order, k, MonthPass(p, order, k, extra).debts)
  {
    if k > 0 {
      MonthPassUntouched(p, order, k - 1, extra);
    }
  }

  /** The payment loop, for `k` debts of an order that lists active
      debts, each once, has paid each debt it reached its share. */
  lemma MonthPassPaid(p: Pass, order: seq<nat>, k: nat, extra: real)
    requires k <= |order| && Ordering.InRange(order, |p.debts|)
    requires AllDistinct(order) && forall q {:trigger p.debts[order[q]]} :: 0 <= q < |order| ==> IsActive(p.debts[order[q]])
    ensures PaidAlong(p.debts, order, k, extra, MonthPass(p, order, k, extra).debts)
  {
    forall a | 0 <= a < k
      ensures MonthPass(p, order, k, extra).debts[order[a]] == Settled(p.debts, order, extra)[a]
    {
      MonthPassPaidAt(p, order, k, extra, a);
    }
  }

  /** The `a`-th debt of such an order, once the loop has passed it, has
      paid its share and is not touched again. */
  lemma {:induction false} MonthPassPaidAt(p: Pass, order: seq<nat>, k: nat, extra: real, a: nat)
    requires a < k <= |order| && Ordering.InRange(order, |p.debts|)
    requires AllDistinct(order) && IsActive(p.debts[order[a]])
    ensures MonthPass(p, order, k, extra).debts[order[a]] == Settled(p.debts, order, extra)[a]
  {
    if a == k - 1 {
      NotYetPaid(p, order, a, extra);
      MonthPassStepDebts(p, order, a, extra);
    } else {
      MonthPassPaidAt(p, order, k - 1, extra, a);
      assert order[a] != order[k - 1];
    }
  }

  /** Before its turn, a debt of such an order is as it was at the start
      of the month. */
  lemma NotYetPaid(p: Pass, order: seq<nat>, k: nat, extra: real)
    requires k < |order| && Ordering.InRange(order, |p.debts|)
    requires AllDistinct(order)
    ensures MonthPass(p, order, k, extra).debts[order[k]] == p.debts[order[k]]
  {
    MonthPassUntouched(p, order, k, extra);
    NotInPrefix(order, k);
  }

  /** The month's record, for `k` debts of such an order, holds their
      entries and the sums of their shares and interest. */
  lemma {:induction false} MonthPassRecord(p: Pass, order: seq<nat>, k: nat, extra: real)
    requires k <= |order| && Ordering.InRange(order, |p.debts|)
    requires AllDistinct(order) && forall q {:trigger p.debts[order[q]]} :: 0 <= q < |order| ==> IsActive(p.debts[order[q]])
    ensures PassedRecord(p, order, k, extra, MonthPass(p, order, k, extra).record)
  {
    if k == 0 {
      assert Shares(p.debts, order, extra)[..0] == [];
      assert InterestsAt(p.debts, order)[..0] == [];
      assert p.record.debts + Entries(p.debts, order, 0, extra) == p.record.debts;
    } else {
      MonthPassRecord(p, order, k - 1, extra);
      NotYetPaid(p, order, k - 1, extra);
      MonthPassStep(p, order, k - 1, extra);
      StepRecord(p, order, k - 1, extra, MonthPass(p, order, k - 1, extra).record,
                 MonthPass(p, order, k, extra).record);
    }
  }

  /** The whole month's payments: the shares of every debt of the order,
      that is every minimum plus the extra once, whenever the order is not
      empty. */
  lemma SharesSum(ds: seq<NewDebtRec>, order: seq<nat>, extra: real)
    requires Ordering.InRange(order, |ds|) && order != []
    ensures Sum(Shares(ds, order, extra)) == Sum(MinsAt(ds, order)) + extra
  {
    var sh := Shares(ds, order, extra);
    var mins := MinsAt(ds, order);
    assert sh == [mins[0] + extra] + sh[1..];
    assert mins == [mins[0]] + mins[1..];
    assert sh[1..] == mins[1..];
    SumAppend([mins[0] + extra], sh[1..]);
    SumAppend([mins[0]], mins[1..]);
    assert Sum([mins[0] + extra]) == mins[0] + extra by {
      assert [mins[0] + extra][..0] == [];
    }
    assert Sum([mins[0]]) == mins[0] by {
      assert [mins[0]][..0] == [];
    }
  }

  /** The state between months: the working debts, the running totals and
      the months recorded so far. */
  datatype RunState = RunState(
    debts: seq<NewDebtRec>,
    totalInterest: real,
    totalPayments: real,
    results: seq<MonthRecord>)

  function StartOfMonth(st: RunState, m: nat): Pass
  {
    Pass(st.debts, st.totalInterest, st.totalPayments, EmptyMonth(m))
  }

  /** The balance still owed on the active debts. */
  function ActiveBalance(ds: seq<NewDebtRec>): real
    decreases |ds|
  {
    if ds == [] then 0.0
    else
      var last := ds[|ds| - 1];
      ActiveBalance(ds[..|ds| - 1]) + if IsActive(last) then last.principal else 0.0
  }

  /** The last month recorded, if any, shows what the active debts still owe. */
  predicate LastBalanceOwed(st: RunState)
  {
    |st.results| > 0 ==> st.results[|st.results| - 1].totalBalance == ActiveBalance(st.debts)
  }

  /** Month `m` (counting from 0): the active debts ranked at the start of
      the month each pay their share, then the month's total balance, which
      is what the active debts still owe, and its record is appended. */
  function Month(st: RunState, m: nat, plan: Plan): (r: RunState)
    ensures |r.debts| == |st.debts|
    ensures AllEvolve(st.debts, r.debts)
    ensures |r.results| == |st.results| + 1 && r.results[..|st.results|] == st.results
    ensures r.results[|st.results|].month == m + 1 && r.results[|st.results|].dateOffsetDays == 30 * m
    ensures r.results[|st.results|].totalBalance == ActiveBalance(r.debts) && LastBalanceOwed(r)
    ensures r.totalInterest == st.totalInterest + r.results[|st.results|].interestThisMonth
    ensures r.totalPayments == st.totalPayments + r.results[|st.results|].paymentsThisMonth
  {
    var order := RankedActive(st.debts, plan.rank);
    var c := MonthPass(StartOfMonth(st, m), order, |order|, plan.extra);
    MonthPassEvolves(StartOfMonth(st, m), order, |order|, plan.extra);
    MonthPassKeeps(StartOfMonth(st, m), order, |order|, plan.extra);
    var rec := c.record.(totalBalance := ActiveBalance(c.debts));
    assert (st.results + [rec])[..|st.results|] == st.results;
    RunState(c.debts, c.totalInterest, c.totalPayments, st.results + [rec])
  }

  /** A month put together from its payment loop. */
  lemma MonthFromSteps(st: RunState, m: nat, plan: Plan, c: Pass)
    requires var order := RankedActive(st.debts, plan.rank);
      c == MonthPass(StartOfMonth(st, m), order, |order|, plan.extra)
    ensures Month(st, m, plan)
         == RunState(c.debts, c.totalInterest, c.totalPayments,
                     st.results + [c.record.(totalBalance := ActiveBalance(c.debts))])
  {
  }

  /** How a month spends: the debts active at the start of the month pay
      in ranking order, each through one `apply_payment` and with one entry
      in the month's record; the first of them (of highest rate for
      avalanche, of smallest balance for snowball) pays its minimum plus the
      extra, every other one exactly its minimum (`Shares`); a debt that was
      not active is untouched. */
  lemma MonthAllocation(st: RunState, m: nat, plan: Plan)
    ensures var order := RankedActive(st.debts, plan.rank);
      var r := Month(st, m, plan);
      var rec := r.results[|st.results|];
      && rec.debts == Entries(st.debts, order, |order|, plan.extra)
      && (forall q :: 0 <= q < |order| ==>
            r.debts[order[q]] == Pay(st.debts[order[q]], Shares(st.debts, order, plan.extra)[q]).0)
      && (forall j :: 0 <= j < |st.debts| && !IsActive(st.debts[j]) ==> r.debts[j] == st.debts[j])
  {
    var order := RankedActive(st.debts, plan.rank);
    RankedDistinct(st.debts, plan.rank);
    var p := StartOfMonth(st, m);
    MonthPassUntouched(p, order, |order|, plan.extra);
    MonthPassPaid(p, order, |order|, plan.extra);
    MonthPassRecord(p, order, |order|, plan.extra);
    forall j | 0 <= j < |st.debts| && j in Reached(order, |order|) ensures IsActive(st.debts[j]) {
      ReachedListed(order, |order|, j);
      assert order[..|order|] == order;
    }
  }

  /** What a month pays and charges: every minimum of a debt active at the
      start of the month plus the extra, whatever the balances, so a
      minimum freed during the month is not passed on; and the month's
      interest on each of those debts. */
  lemma MonthPayments(st: RunState, m: nat, plan: Plan)
    requires ActiveIndices(st.debts) != []
    ensures var rec := Month(st, m, plan).results[|st.results|];
      && rec.paymentsThisMonth == ActiveMinimums(st.debts) + plan.extra
      && rec.interestThisMonth == Sum(InterestsAt(st.debts, RankedActive(st.debts, plan.rank)))
  {
    var order := RankedActive(st.debts, plan.rank);
    RankedActiveEmpty(st.debts, plan.rank);
    RankedDistinct(st.debts, plan.rank);
    var p := StartOfMonth(st, m);
    MonthPassRecord(p, order, |order|, plan.extra);
    var sh := Shares(st.debts, order, plan.extra);
    assert sh[..|order|] == sh;
    assert InterestsAt(st.debts, order)[..|order|] == InterestsAt(st.debts, order);
    SharesSum(st.debts, order, plan.extra);
    RankedMinimums(st.debts, plan.rank);
  }

  /** The run from month `m` on: it stops at the horizon or at the first
      month that starts with no active debt. */
  function RunFrom(st: RunState, m: nat, horizon: int, plan: Plan): (r: RunState)
    ensures |r.debts| == |st.debts|
    ensures AllEvolve(st.debts, r.debts)
    ensures |r.results| >= |st.results| && r.results[..|st.results|] == st.results
    ensures |r.results| == |st.results| ==> r == st
    ensures |r.results| > |st.results| ==> LastBalanceOwed(r)
    decreases horizon - m
  {
    if m >= horizon || ActiveIndices(st.debts) == [] then
      assert st.results[..|st.results|] == st.results;
      AllEvolveRefl(st.debts);
      st
    else
      var next := Month(st, m, plan);
      var r := RunFrom(next, m + 1, horizon, plan);
      AllEvolveTransitive(st.debts, next.debts, r.debts);
      assert r.results[..|st.results|] == r.results[..|next.results|][..|st.results|];
      r
  }

  lemma RunFromUnfold(st: RunState, m: nat, horizon: int, plan: Plan)
    requires m < horizon && ActiveIndices(st.debts) != []
    ensures RunFrom(st, m, horizon, plan) == RunFrom(Month(st, m, plan), m + 1, horizon, plan)
  {
  }

  /** The month loop stops at the horizon or once no debt is active. */
  lemma RunFromDone(st: RunState, m: nat, horizon: int, plan: Plan)
    requires m >= horizon || ActiveIndices(st.debts) == []
    ensures RunFrom(st, m, horizon, plan) == st
  {
  }

  // ---------------------------------------------------------------------
  // Facts about whole runs
  // ---------------------------------------------------------------------

  /** Months are numbered from 1 and dated 30 days apart from day 0. */
  predicate Numbered(rs: seq<MonthRecord>)
  {
    forall k :: 0 <= k < |rs| ==> rs[k].month == k + 1 && rs[k].dateOffsetDays == 30 * k
  }

  /** The running totals are the sums over the months recorded. */
  predicate TotalsMatch(st: RunState)
  {
    st.totalInterest == Sum(MonthlyInterests(st.results)) && st.totalPayments == Sum(MonthlyPayments(st.results))
  }

  lemma AppendKeepsNumbered(rs: seq<MonthRecord>, next: seq<MonthRecord>)
    requires Numbered(rs)
    requires |next| == |rs| + 1 && next[..|rs|] == rs
    requires next[|rs|].month == |rs| + 1 && next[|rs|].dateOffsetDays == 30 * |rs|
    ensures Numbered(next)
  {
    forall k | 0 <= k < |rs| ensures next[k] == rs[k] {
      assert next[..|rs|][k] == next[k];
    }
  }

  /** A run from month `m` adds months only up to the horizon and stops
      early only once no debt is active. */
  lemma {:induction false} RunFromStops(st: RunState, m: nat, horizon: int, plan: Plan)
    requires |st.results| == m
    ensures var fin := RunFrom(st, m, horizon, plan);
      && (|fin.results| > m ==> |fin.results| <= horizon)
      && (|fin.results| < horizon ==> ActiveIndices(fin.debts) == [])
    decreases horizon - m
  {
    if m < horizon && ActiveIndices(st.debts) != [] {
      var next := Month(st, m, plan);
      RunFromStops(next, m + 1, horizon, plan);
      RunFromUnfold(st, m, horizon, plan);
    }
  }

  lemma {:induction false} RunFromNumbered(st: RunState, m: nat, horizon: int, plan: Plan)
    requires |st.results| == m && Numbered(st.results)
    ensures Numbered(RunFrom(st, m, horizon, plan).results)
    decreases horizon - m
  {
    if m < horizon && ActiveIndices(st.debts) != [] {
      var next := Month(st, m, plan);
      AppendKeepsNumbered(st.results, next.results);
      RunFromNumbered(next, m + 1, horizon, plan);
      RunFromUnfold(st, m, horizon, plan);
    }
  }

  lemma {:induction false} RunFromTotals(st: RunState, m: nat, horizon: int, plan: Plan)
    requires TotalsMatch(st)
    ensures TotalsMatch(RunFrom(st, m, horizon, plan))
    decreases horizon - m
  {
    if m < horizon && ActiveIndices(st.debts) != [] {
      var next := Month(st, m, plan);
      SumsOfAppendedMonth(st.results, next.results);
      RunFromTotals(next, m + 1, horizon, plan);
      RunFromUnfold(st, m, horizon, plan);
    }
  }

  // ---------------------------------------------------------------------
  // The result of a run
  // ---------------------------------------------------------------------

  datatype NewSummary = NewSummary(
    totalInterestPaid: real,
    totalPaymentsMade: real,
    monthsToZero: int,
    debtFreeDate: Option<int>,
    finalTotalBalance: real)

  datatype NewResult = NewResult(
    results: seq<MonthRecord>,
    summary: NewSummary,
    finalDebts: seq<FinalDebt>)

  function FinalDebtOf(d: NewDebtRec): FinalDebt
  {
    FinalDebt(d.id, d.name, d.principal, d.totalInterestPaid, d.monthsPaid, d.status.Name())
  }

  function FinalDebts(ds: seq<NewDebtRec>): (r: seq<FinalDebt>)
    ensures |r| == |ds| && forall k :: 0 <= k < |ds| ==> r[k] == FinalDebtOf(ds[k])
  {
    seq(|ds|, k requires 0 <= k < |ds| => FinalDebtOf(ds[k]))
  }

  function InitialState(debts: seq<NewDebtRec>): RunState
  {
    RunState(debts, 0.0, 0.0, [])
  }

  /** The answer of a simulation read off the final state of its month loop. */
  function Summarize(fin: RunState): NewResult
  {
    NewResult(
      fin.results,
      NewSummary(fin.totalInterest, fin.totalPayments, |fin.results|, DebtFreeDate(fin.results),
                 ActiveBalance(fin.debts)),
      FinalDebts(fin.debts))
  }

  /** `simulate_avalanche` / `simulate_snowball` on debt values. */
  function Simulation(debts: seq<NewDebtRec>, extraPayment: real, rank: Ranking, maxMonths: int): NewResult
  {
    Summarize(RunFrom(InitialState(debts), 0, maxMonths, Plan(rank, extraPayment)))
  }

  /** What the simulations promise about the months they report: at most
      `maxMonths` of them, none when no debt starts active, fewer only once
      every debt is retired, numbered and dated in order; months to zero is
      their number, the totals are the sums over them, and the debt-free
      date is the date of the first month whose total balance is not
      positive. */
  lemma SimulationMonths(debts: seq<NewDebtRec>, extraPayment: real, rank: Ranking, maxMonths: int)
    ensures var res := Simulation(debts, extraPayment, rank, maxMonths);
      var n := |res.results|;
      && (n > 0 ==> n <= maxMonths)
      && (ActiveIndices(debts) == [] ==> n == 0)
      && (n < maxMonths ==> forall j :: 0 <= j < |res.finalDebts| ==> res.finalDebts[j].status != ACTIVE)
      && Numbered(res.results)
      && res.summary.monthsToZero == n
      && res.summary.totalInterestPaid == Sum(MonthlyInterests(res.results))
      && res.summary.totalPaymentsMade == Sum(MonthlyPayments(res.results))
      && (res.summary.debtFreeDate.Some? <==> exists k :: 0 <= k < n && res.results[k].totalBalance <= 0.0)
      && (forall k :: 0 <= k < n && res.results[k].totalBalance <= 0.0 ==>
            && res.summary.debtFreeDate.Some?
            && res.summary.debtFreeDate.value <= res.results[k].dateOffsetDays)
  {
    var st := InitialState(debts);
    var fin := RunFrom(st, 0, maxMonths, Plan(rank, extraPayment));
    assert MonthlyInterests([]) == [] && MonthlyPayments([]) == [];
    RunFromStops(st, 0, maxMonths, Plan(rank, extraPayment));
    RunFromNumbered(st, 0, maxMonths, Plan(rank, extraPayment));
    RunFromTotals(st, 0, maxMonths, Plan(rank, extraPayment));
    var rs := fin.results;
    forall k | 0 <= k < |rs| && rs[k].totalBalance <= 0.0
      ensures DebtFreeDate(rs).Some? && DebtFreeDate(rs).value <= rs[k].dateOffsetDays
    {
      var f := FirstSettledMonth(rs).value;
      assert f <= k;
    }
  }

  /** The final debts they report: one per debt, each keeping its id and
      name; one that started retired is reported as it was; one that
      started active ends active or paid, owing nothing negative unless it
      was never paid, and nothing at all once paid. */
  lemma SimulationFinalDebts(debts: seq<NewDebtRec>, extraPayment: real, rank: Ranking, maxMonths: int)
    ensures var res := Simulation(debts, extraPayment, rank, maxMonths);
      var fds := res.finalDebts;
      && |fds| == |debts|
      && (forall j :: 0 <= j < |debts| ==>
            && fds[j].id == debts[j].id && fds[j].name == debts[j].name
            && (!IsActive(debts[j]) ==> fds[j].finalBalance == debts[j].principal && fds[j].status == debts[j].status.Name())
            && (IsActive(debts[j]) ==> fds[j].status == ACTIVE || fds[j].status == PAID)
            && (fds[j].status == PAID && IsActive(debts[j]) ==> fds[j].finalBalance == 0.0)
            && (debts[j].principal >= 0.0 ==> fds[j].finalBalance >= 0.0))
  {
    var fin := RunFrom(InitialState(debts), 0, maxMonths, Plan(rank, extraPayment));
    forall j | 0 <= j < |debts| ensures Evolves(debts[j], fin.debts[j]) {
      AllEvolveAt(debts, fin.debts, j);
    }
  }

  /** The last month reported shows the final total balance. */
  lemma SimulationFinalBalance(debts: seq<NewDebtRec>, extraPayment: real, rank: Ranking, maxMonths: int)
    ensures var res := Simulation(debts, extraPayment, rank, maxMonths);
      |res.results| > 0 ==> res.results[|res.results| - 1].totalBalance == res.summary.finalTotalBalance
  {
  }

  // ---------------------------------------------------------------------
  // The Debt object
  // ---------------------------------------------------------------------

  class Debt {
    const id: int
    const name: string
    const apr: real
    const minPayment: real
    const compounding: string
    var principal: real
    var status: DebtStatus
    var monthsPaid: int
    var totalInterestPaid: real

    function Snap(): NewDebtRec
      reads this
    {
      NewDebtRec(id, name, principal, apr, minPayment, compounding, status, monthsPaid, totalInterestPaid)
    }

    constructor (id: int, name: string, principal: real, apr: real, minPayment: real, compounding: string)
      ensures Snap() == NewDebt(id, name, principal, apr, minPayment, compounding)
    {
      this.id := id;
      this.name := name;
      this.principal := principal;
      this.apr := apr;
      this.minPayment := minPayment;
      this.compounding := compounding;
      this.status := Active;
      this.monthsPaid := 0;
      this.totalInterestPaid := 0.0;
    }

    /** A copy with every field of `d`, as `copy.deepcopy` makes. */
    constructor Copy(d: Debt)
      ensures Snap() == d.Snap()
    {
      this.id := d.id;
      this.name := d.name;
      this.principal := d.principal;
      this.apr := d.apr;
      this.minPayment := d.minPayment;
      this.compounding := d.compounding;
      this.status := d.status;
      this.monthsPaid := d.monthsPaid;
      this.totalInterestPaid := d.totalInterestPaid;
    }

    function CalculateMonthlyInterest(): real
      reads this
    {
      MonthlyInterest(Snap())
    }

    method ApplyPayment(payment: real) returns (r: NewPaymentResult)
      modifies this
      ensures (Snap(), r) == Pay(old(Snap()), payment)
    {
      if status != Active {
        return NewPaymentResult(0.0, 0.0, principal, None);
      }
      var monthlyInterest := CalculateMonthlyInterest();
      principal := principal + monthlyInterest;
      var interestPayment, principalPayment;
      if payment >= principal {
        interestPayment := monthlyInterest;
        principalPayment := principal - monthlyInterest;
        principal := 0.0;
        status := Paid;
      } else {
        interestPayment := monthlyInterest;
        principalPayment := payment - monthlyInterest;
        principal := principal - payment;
      }
      totalInterestPaid := totalInterestPaid + interestPayment;
      monthsPaid := monthsPaid + 1;
      r := NewPaymentResult(principalPayment, interestPayment, principal, Some(status == Paid));
    }
  }

  function Snapshots(ws: seq<Debt>): (r: seq<NewDebtRec>)
    reads ws
    ensures |r| == |ws|
    ensures forall k :: 0 <= k < |ws| ==> r[k] == ws[k].Snap()
  {
    seq(|ws|, k requires 0 <= k < |ws| reads ws => ws[k].Snap())
  }

  /** The debt objects hold the debt values, one by one. */
  predicate Mirrors(ws: seq<Debt>, ds: seq<NewDebtRec>)
    reads ws
  {
    |ws| == |ds| && forall k :: 0 <= k < |ws| ==> ws[k].Snap() == ds[k]
  }

  lemma MirrorsSnapshots(ws: seq<Debt>, ds: seq<NewDebtRec>)
    requires Mirrors(ws, ds)
    ensures Snapshots(ws) == ds
  {
  }

  // ---------------------------------------------------------------------
  // The month loop on debt objects
  // ---------------------------------------------------------------------

  /** `[copy.deepcopy(debt) for debt in self.debts]`: fresh objects holding
      the same values. */
  method CopyDebts(debts: seq<Debt>) returns (working: seq<Debt>)
    ensures |working| == |debts|
    ensures forall k :: 0 <= k < |working| ==> fresh(working[k])
    ensures AllDistinct(working)
    ensures Mirrors(working, old(Snapshots(debts)))
  {
    working := [];
    var i := 0;
    while i < |debts|
      invariant 0 <= i <= |debts| && |working| == i
      invariant forall k :: 0 <= k < i ==> fresh(working[k])
      invariant AllDistinct(working)
      invariant forall k :: 0 <= k < i ==> working[k].Snap() == debts[k].Snap()
    {
      var copy := new Debt.Copy(debts[i]);
      working := working + [copy];
      i := i + 1;
    }
  }

  /** The body of the payment loop for the `k`-th debt of the month's
      order: a debt no longer active is skipped (`continue`); the debt that
      is the first of the order pays its minimum plus the extra, any other
      its minimum. */
  method PayAt(working: seq<Debt>, order: seq<nat>, k: nat, extra: real, p: Pass) returns (q: Pass)
    requires AllDistinct(working) && Mirrors(working, p.debts)
    requires k < |order| && Ordering.InRange(order, |working|)
    modifies working[order[k]]
    ensures q == PayStep(p, order[k], PaymentFor(p.debts[order[k]], order, k, extra))
    ensures Mirrors(working, q.debts)
  {
    var debt := working[order[k]];
    if debt.status != Active {
      return p;
    }
    var monthlyInterest := debt.CalculateMonthlyInterest();
    var paymentAmount;
    if debt == working[order[0]] {
      paymentAmount := debt.minPayment + extra;
    } else {
      paymentAmount := debt.minPayment;
    }
    var paymentResult := debt.ApplyPayment(paymentAmount);
    var info := DebtInfo(debt.id, debt.name, debt.principal, paymentResult.interestPayment, paymentAmount,
                         debt.status.Name());
    var record := p.record.(interestThisMonth := p.record.interestThisMonth + monthlyInterest,
                            paymentsThisMonth := p.record.paymentsThisMonth + paymentAmount,
                            debts := p.record.debts + [info]);
    if debt.status == Paid {
      record := record.(paidOffThisMonth := record.paidOffThisMonth + [debt.name]);
    }
    q := Pass(p.debts[order[k] := debt.Snap()], p.totalInterest + monthlyInterest,
              p.totalPayments + paymentAmount, record);
  }

  /** The payment loop over the debt objects in the month's order. */
  method PayMonth(working: seq<Debt>, order: seq<nat>, extra: real, p: Pass) returns (q: Pass)
    requires AllDistinct(working) && Mirrors(working, p.debts) && Ordering.InRange(order, |working|)
    modifies working
    ensures q == MonthPass(p, order, |order|, extra)
    ensures Mirrors(working, q.debts)
  {
    q := p;
    var k := 0;
    while k < |order|
      invariant 0 <= k <= |order|
      invariant q == MonthPass(p, order, k, extra)
      invariant Mirrors(working, q.debts)
    {
      q := PayAt(working, order, k, extra, q);
      k := k + 1;
    }
  }

  /** One month of the run on debt objects holding `cur.debts`: the run
      from month `m` on is the run from the next month on. */
  method RunMonth(working: seq<Debt>, ghost cur: RunState, m: nat, horizon: int, plan: Plan,
                  totalInterest: real, totalPayments: real, results: seq<MonthRecord>, ghost target: RunState)
    returns (st: RunState)
    requires AllDistinct(working) && Mirrors(working, cur.debts)
    requires cur.totalInterest == totalInterest && cur.totalPayments == totalPayments && cur.results == results
    requires m < horizon && ActiveIndices(cur.debts) != []
    requires RunFrom(cur, m, horizon, plan) == target
    modifies working
    ensures Mirrors(working, st.debts) && |st.results| == |results| + 1
    ensures RunFrom(st, m + 1, horizon, plan) == target
  {
    MirrorsSnapshots(working, cur.debts);
    var activeDebts := RankedActive(Snapshots(working), plan.rank);
    var start := Pass(Snapshots(working), totalInterest, totalPayments, EmptyMonth(m));
    var c := PayMonth(working, activeDebts, plan.extra, start);
    MirrorsSnapshots(working, c.debts);
    var monthData := c.record.(totalBalance := ActiveBalance(Snapshots(working)));
    st := RunState(c.debts, c.totalInterest, c.totalPayments, results + [monthData]);
    MonthFromSteps(cur, m, plan, c);
    RunFromUnfold(cur, m, horizon, plan);
  }

  /** The month loop `for month in range(1, max_months + 1)` on debt
      objects holding `ds0`. */
  method RunMonths(working: seq<Debt>, ghost ds0: seq<NewDebtRec>, maxMonths: int, plan: Plan)
    returns (fin: RunState)
    requires AllDistinct(working) && Mirrors(working, ds0)
    modifies working
    ensures fin == RunFrom(InitialState(ds0), 0, maxMonths, plan)
    ensures Mirrors(working, fin.debts)
  {
    var totalInterest, totalPayments := 0.0, 0.0;
    var results: seq<MonthRecord> := [];
    ghost var cur := InitialState(ds0);
    ghost var target := RunFrom(cur, 0, maxMonths, plan);
    var month := 0;
    while month < maxMonths
      invariant 0 <= month
      invariant cur.totalInterest == totalInterest && cur.totalPayments == totalPayments && cur.results == results
      invariant Mirrors(working, cur.debts)
      invariant RunFrom(cur, month, maxMonths, plan) == target
      decreases maxMonths - month
    {
      MirrorsSnapshots(working, cur.debts);
      var activeDebts := ActiveIndices(Snapshots(working));
      if activeDebts == [] {
        break;
      }
      var next := RunMonth(working, cur, month, maxMonths, plan, totalInterest, totalPayments, results,
                           target);
      totalInterest, totalPayments, results := next.totalInterest, next.totalPayments, next.results;
      cur := next;
      month := month + 1;
    }
    MirrorsSnapshots(working, cur.debts);
    fin := RunState(Snapshots(working), totalInterest, totalPayments, results);
    RunFromDone(fin, month, maxMonths, plan);
  }

  /** The `final_debts` list: one entry per debt object, in list order. */
  method ReportFinalDebts(working: seq<Debt>, ghost ds: seq<NewDebtRec>) returns (r: seq<FinalDebt>)
    requires Mirrors(working, ds)
    ensures r == FinalDebts(ds)
  {
    r := [];
    var i := 0;
    while i < |working|
      invariant 0 <= i <= |working|
      invariant r == FinalDebts(ds[..i])
    {
      var debt := working[i];
      assert ds[..i + 1] == ds[..i] + [ds[i]];
      r := r + [FinalDebt(debt.id, debt.name, debt.principal, debt.totalInterestPaid, debt.monthsPaid, debt.status.Name())];
      i := i + 1;
    }
    assert ds[..i] == ds;
  }

  /** The engine: the list of debts it was given. */
  class SimulationEngine {
    var debts: seq<Debt>

    constructor ()
      ensures debts == []
    {
      debts := [];
    }

    /** `add_debt`: appends the debt object itself, not a copy. */
    method AddDebt(debt: Debt)
      modifies this
      ensures debts == old(debts) + [debt]
    {
      debts := debts + [debt];
    }

    /** The body `simulate_avalanche` and `simulate_snowball` share: copies
        of the debts are run month by month, then summarised; the engine's
        own debts are left as they were. */
    method SimulateRanked(extraPayment: real, maxMonths: int, rank: Ranking) returns (r: NewResult)
      ensures r == Simulation(old(Snapshots(debts)), extraPayment, rank, maxMonths)
    {
      ghost var given := Snapshots(debts);
      var working := CopyDebts(debts);
      var fin := RunMonths(working, given, maxMonths, Plan(rank, extraPayment));
      var finalDebts := ReportFinalDebts(working, fin.debts);
      var debtFreeDate := FindDebtFreeDate(fin.results);
      MirrorsSnapshots(working, fin.debts);
      var summary := NewSummary(fin.totalInterest, fin.totalPayments, |fin.results|, debtFreeDate,
                                ActiveBalance(Snapshots(working)));
      r := NewResult(fin.results, summary, finalDebts);
    }

    /** `simulate_avalanche`: the debt of highest rate takes the extra. */
    method SimulateAvalanche(extraPayment: real, maxMonths: int) returns (r: NewResult)
      ensures r == Simulation(Snapshots(debts), extraPayment, Avalanche, maxMonths)
    {
      r := SimulateRanked(extraPayment, maxMonths, Avalanche);
    }

    /** `simulate_snowball`: the debt of smallest balance takes the extra. */
    method SimulateSnowball(extraPayment: real, maxMonths: int) returns (r: NewResult)
      ensures r == Simulation(Snapshots(debts), extraPayment, Snowball, maxMonths)
    {
      r := SimulateRanked(extraPayment, maxMonths, Snowball);
    }
  }
}
