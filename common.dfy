/** Shared vocabulary of the debt-repayment engines: failure-compatible result
    types, the two debt status strings, exact-real sums and powers, and the
    truncating integer conversion Python's `int()` performs. */
module Common {

  datatype Option<+T> = None | Some(value: T)

  /** A computation that either produces a value or raises (the message stands
      for the Python exception). */
  datatype Result<+T> = Success(value: T) | Failure(error: string)

  /** The status strings every engine stores on its debts. */
  const ACTIVE: string := "active"
  const PAID: string := "paid"

  /** Python's `sum(...)`: a left-to-right fold starting at 0. */
  function Sum(xs: seq<real>): real
  {
    if xs == [] then 0.0 else Sum(xs[..|xs| - 1]) + xs[|xs| - 1]
  }

  lemma {:induction false} SumAppend(a: seq<real>, b: seq<real>)
    ensures Sum(a + b) == Sum(a) + Sum(b)
    decreases |b|
  {
    if b == [] {
      assert a + b == a;
    } else {
      var c := a + b;
      assert c[..|c| - 1] == a + b[..|b| - 1];
      SumAppend(a, b[..|b| - 1]);
    }
  }

  lemma {:induction false} SumNonNegative(xs: seq<real>)
    requires forall k :: 0 <= k < |xs| ==> xs[k] >= 0.0
    ensures Sum(xs) >= 0.0
    decreases |xs|
  {
    if xs != [] {
      SumNonNegative(xs[..|xs| - 1]);
    }
  }

  /** Removing the element at position `k` takes exactly that element out of the sum. */
  lemma {:induction false} SumRemove(xs: seq<real>, k: nat)
    requires k < |xs|
    ensures Sum(xs) == Sum(xs[..k] + xs[k + 1..]) + xs[k]
  {
    assert xs == xs[..k] + [xs[k]] + xs[k + 1..];
    SumAppend(xs[..k] + [xs[k]], xs[k + 1..]);
    SumAppend(xs[..k], [xs[k]]);
    SumAppend(xs[..k], xs[k + 1..]);
    assert Sum([xs[k]]) == Sum([]) + xs[k];
  }

  /** Exact sums do not depend on the order of the summands. */
  lemma {:induction false} SumPermutation(a: seq<real>, b: seq<real>)
    requires multiset(a) == multiset(b)
    ensures Sum(a) == Sum(b)
    decreases |a|
  {
    if a != [] {
      var x := a[|a| - 1];
      assert x in multiset(b);
      var k :| 0 <= k < |b| && b[k] == x;
      var a' := a[..|a| - 1];
      var b' := b[..k] + b[k + 1..];
      assert a == a' + [x];
      assert b == b[..k] + [x] + b[k + 1..];
      calc {
        multiset(a') + multiset{x};
        multiset(a);
        multiset(b);
        multiset(b[..k]) + multiset{x} + multiset(b[k + 1..]);
        multiset(b') + multiset{x};
      }
      forall y ensures multiset(a')[y] == multiset(b')[y] {
        assert (multiset(a') + multiset{x})[y] == (multiset(b') + multiset{x})[y];
      }
      assert multiset(a') == multiset(b');
      SumPermutation(a', b');
      SumRemove(b, k);
    }
  }

  /** `x ** n` for a natural exponent, as Decimal computes it exactly here. */
  function Pow(x: real, n: nat): real
  {
    if n == 0 then 1.0 else x * Pow(x, n - 1)
  }

  /** Bernoulli's inequality: compounding `n` times at a non-negative rate
      gives at least `n` times the simple rate. */
  lemma {:induction false} Bernoulli(x: real, n: nat)
    requires x >= 0.0
    ensures Pow(1.0 + x, n) >= 1.0 + (n as real) * x
  {
    if n > 0 {
      Bernoulli(x, n - 1);
      var p := Pow(1.0 + x, n - 1);
      var m := (n - 1) as real;
      MulMonotone(1.0 + x, p, 1.0 + m * x);
      assert (1.0 + x) * (1.0 + m * x) == 1.0 + (m + 1.0) * x + m * (x * x);
      assert m * (x * x) >= 0.0;
    }
  }

  lemma MulMonotone(a: real, b: real, c: real)
    requires a >= 0.0 && b >= c
    ensures a * b >= a * c
  {
  }

  /** Python's `int(q)` on a real quotient: truncation toward zero. */
  function Trunc(q: real): (r: int)
    ensures q >= 0.0 ==> r as real <= q < r as real + 1.0
    ensures q < 0.0 ==> r as real - 1.0 < q <= r as real
  {
    if q >= 0.0 then q.Floor else -((-q).Floor)
  }

  predicate AllDistinct<T(==)>(xs: seq<T>)
  {
    forall a, b :: 0 <= a < b < |xs| ==> xs[a] != xs[b]
  }

  function Abs(x: real): real
  {
    if x >= 0.0 then x else -x
  }

  /** Ranks debts as the hybrid score `principal / sqrt(apr)` does, without
      the square root: for apr > 0 the score s satisfies s * |s| == principal
      * |principal| / apr, and s |-> s * |s| is strictly increasing. */
  function HybridKey(principal: real, apr: real): real
  {
    if apr > 0.0 then principal * Abs(principal) / apr else 0.0
  }

  /** `s` is the real number `principal / sqrt(apr)`. */
  ghost predicate IsHybridScore(s: real, principal: real, apr: real)
  {
    apr > 0.0 && s * s * apr == principal * principal && (s >= 0.0 <==> principal >= 0.0)
  }

  lemma HybridKeyOfScore(s: real, principal: real, apr: real)
    requires IsHybridScore(s, principal, apr)
    ensures HybridKey(principal, apr) == s * Abs(s)
  {
    if s >= 0.0 {
      assert principal * Abs(principal) == s * s * apr;
    } else {
      assert principal * Abs(principal) == -(s * s * apr);
    }
    assert principal * Abs(principal) == (s * Abs(s)) * apr;
  }

  lemma SquareStrictlyIncreasing(a: real, b: real)
    requires 0.0 <= a < b
    ensures a * a < b * b
  {
    var d := b - a;
    assert b * b == a * a + d * (b + a);
    assert d > 0.0 && b + a > 0.0;
    assert d * (b + a) > 0.0;
  }

  lemma SignedSquareStrictlyIncreasing(x: real, y: real)
    requires x < y
    ensures x * Abs(x) < y * Abs(y)
  {
    if x >= 0.0 {
      SquareStrictlyIncreasing(x, y);
    } else if y <= 0.0 {
      SquareStrictlyIncreasing(-y, -x);
    } else {
      assert x * Abs(x) < 0.0 < y * Abs(y);
    }
  }

  /** Comparing hybrid keys is comparing the scores `principal / sqrt(apr)`. */
  lemma HybridKeyOrdersScores(s1: real, p1: real, a1: real, s2: real, p2: real, a2: real)
    requires IsHybridScore(s1, p1, a1) && IsHybridScore(s2, p2, a2)
    ensures s1 < s2 <==> HybridKey(p1, a1) < HybridKey(p2, a2)
    ensures s1 == s2 <==> HybridKey(p1, a1) == HybridKey(p2, a2)
  {
    HybridKeyOfScore(s1, p1, a1);
    HybridKeyOfScore(s2, p2, a2);
    if s1 < s2 {
      SignedSquareStrictlyIncreasing(s1, s2);
    } else if s2 < s1 {
      SignedSquareStrictlyIncreasing(s2, s1);
    }
  }

  // ---------------------------------------------------------------------
  // The month records every engine produces
  // ---------------------------------------------------------------------

  /** One entry of a month's `debts` list. */
  datatype DebtInfo = DebtInfo(
    id: int,
    name: string,
    balance: real,
    interestPaid: real,
    paymentMade: real,
    status: string)

  /** One month of `simulation_results`; the date is kept as the number of
      days after the start of the run. */
  datatype MonthRecord = MonthRecord(
    month: int,
    dateOffsetDays: int,
    totalBalance: real,
    interestThisMonth: real,
    paymentsThisMonth: real,
    debts: seq<DebtInfo>,
    paidOffThisMonth: seq<string>)

  function EmptyMonth(m: nat): MonthRecord
  {
    MonthRecord(m + 1, 30 * m, 0.0, 0.0, 0.0, [], [])
  }

  datatype FinalDebt = FinalDebt(
    id: int,
    name: string,
    finalBalance: real,
    totalInterestPaid: real,
    monthsPaid: int,
    status: string)

  /** The extra payment of the enhanced run. */
  function TotalExtra(baseExtra: real, additionalExtra: real): real
  {
    baseExtra + additionalExtra
  }

  function MonthlyInterests(rs: seq<MonthRecord>): (r: seq<real>)
    ensures |r| == |rs| && forall k :: 0 <= k < |rs| ==> r[k] == rs[k].interestThisMonth
  {
    seq(|rs|, k requires 0 <= k < |rs| => rs[k].interestThisMonth)
  }

  function MonthlyPayments(rs: seq<MonthRecord>): (r: seq<real>)
    ensures |r| == |rs| && forall k :: 0 <= k < |rs| ==> r[k] == rs[k].paymentsThisMonth
  {
    seq(|rs|, k requires 0 <= k < |rs| => rs[k].paymentsThisMonth)
  }

  /** Appending a month adds its interest and its payments to the sums over
      the months. */
  lemma SumsOfAppendedMonth(rs: seq<MonthRecord>, next: seq<MonthRecord>)
    requires |next| == |rs| + 1 && next[..|rs|] == rs
    ensures Sum(MonthlyInterests(next)) == Sum(MonthlyInterests(rs)) + next[|rs|].interestThisMonth
    ensures Sum(MonthlyPayments(next)) == Sum(MonthlyPayments(rs)) + next[|rs|].paymentsThisMonth
  {
    assert MonthlyInterests(next)[..|rs|] == MonthlyInterests(rs);
    assert MonthlyPayments(next)[..|rs|] == MonthlyPayments(rs);
  }

  /** The position of the first entry of `infos` with the given id. */
  function FirstWithId(infos: seq<DebtInfo>, id: int): (r: Option<nat>)
    ensures r.None? <==> forall j :: 0 <= j < |infos| ==> infos[j].id != id
    ensures r.Some? ==> r.value < |infos| && infos[r.value].id == id
                        && forall j :: 0 <= j < r.value ==> infos[j].id != id
    decreases |infos|
  {
    if infos == [] then None
    else if infos[0].id == id then Some(0)
    else
      match FirstWithId(infos[1..], id)
      case None => None
      case Some(k) => Some(k + 1)
  }

  /** A later payment recorded against a month's entries: the first entry
      with the debt's id takes the new balance and status and adds the
      payment to what it records as paid; every other entry is unchanged,
      and nothing changes when no entry has the id. */
  function UpdateInfo(infos: seq<DebtInfo>, id: int, balance: real, payment: real, status: string)
    : (r: seq<DebtInfo>)
    ensures |r| == |infos|
    ensures FirstWithId(infos, id).None? ==> r == infos
    ensures FirstWithId(infos, id).Some? ==>
      var k := FirstWithId(infos, id).value;
      && (forall j :: 0 <= j < |infos| && j != k ==> r[j] == infos[j])
      && r[k].id == id && r[k].name == infos[k].name && r[k].interestPaid == infos[k].interestPaid
      && r[k].balance == balance && r[k].status == status
      && r[k].paymentMade - infos[k].paymentMade == payment
  {
    match FirstWithId(infos, id)
    case None => infos
    case Some(k) => infos[k := infos[k].(balance := balance, paymentMade := infos[k].paymentMade + payment,
                                         status := status)]
  }

  /** The search loop that updates a month's entry for a debt in place. */
  method UpdateDebtInfo(infos: seq<DebtInfo>, id: int, balance: real, payment: real, status: string)
    returns (r: seq<DebtInfo>)
    ensures r == UpdateInfo(infos, id, balance, payment, status)
  {
    r := infos;
    var k := 0;
    while k < |r|
      invariant 0 <= k <= |r| && r == infos
      invariant forall j :: 0 <= j < k ==> infos[j].id != id
    {
      if r[k].id == id {
        r := r[k := r[k].(balance := balance, paymentMade := r[k].paymentMade + payment, status := status)];
        return;
      }
      k := k + 1;
    }
  }

  /** The first month whose total balance is not positive. */
  function FirstSettledMonth(rs: seq<MonthRecord>): (r: Option<nat>)
    ensures r.None? <==> forall k :: 0 <= k < |rs| ==> rs[k].totalBalance > 0.0
    ensures r.Some? ==> r.value < |rs| && rs[r.value].totalBalance <= 0.0
                        && forall k :: 0 <= k < r.value ==> rs[k].totalBalance > 0.0
    decreases |rs|
  {
    if rs == [] then None
    else if rs[0].totalBalance <= 0.0 then Some(0)
    else
      match FirstSettledMonth(rs[1..])
      case None => None
      case Some(k) => Some(k + 1)
  }

  /** The debt-free date: the date of the first month whose total balance
      is not positive, if there is one. */
  function DebtFreeDate(rs: seq<MonthRecord>): Option<int>
  {
    match FirstSettledMonth(rs)
    case None => None
    case Some(k) => Some(rs[k].dateOffsetDays)
  }

  /** The search loop over the recorded months for the debt-free date. */
  method FindDebtFreeDate(rs: seq<MonthRecord>) returns (date: Option<int>)
    ensures date == DebtFreeDate(rs)
  {
    date := None;
    var k := 0;
    while k < |rs|
      invariant 0 <= k <= |rs|
      invariant forall j :: 0 <= j < k ==> rs[j].totalBalance > 0.0
    {
      if rs[k].totalBalance <= 0.0 {
        date := Some(rs[k].dateOffsetDays);
        return;
      }
      k := k + 1;
    }
  }
}
