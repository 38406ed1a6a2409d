# Financial Freedom debt-repayment core, modelled in Dafny

Financial Freedom is a personal debt-repayment planner. A user records debts. Each debt has a
name, a principal, an annual rate (APR), a minimum payment and a status. The backend simulates
month by month how the debts are paid off under a repayment strategy:

- avalanche: extra money goes to the highest APR first;
- snowball: extra money goes to the smallest balance first;
- hybrid: extra money goes to the lowest balance/√APR first.

The backend holds four simulation engines that evolved side by side, and each is modelled here
separately:

- `SimulationEngine` (`simulation_engine.py`): interest is charged on payment, monthly or daily
  compounding, one target debt for the extra pool, and compare and impact helpers.
- `SimpleSimulationEngine` (`simple_simulation_engine.py`): interest is applied once a month. The
  freed minimums flow down a waterfall. It also has a baseline run, a comparison and an impact
  helper.
- `TwoTowerSimulationEngine` (`two_tower_simulation_engine.py`): a fixed monthly budget (the
  payment tower) is spent over the debts (the debt tower) in strategy order.
- `NewSimulationEngine` (`new_simulation_engine.py`): each ranked active debt pays its minimum.
  The first debt in the ranking also takes the extra.

Three strategy classes (`AvalancheStrategy`, `SnowballStrategy`, `HybridStrategy`) give a
recommendation and an analysis. The Flask API (`DebtApi`, from `app.py`) checks the fields of a
create or update request, builds the SQL update and normalises a stored APR. Two frontend helpers
are modelled as well:

- `ApiUtils` (`utils/api.js`): the months→"x years y months" formatter and the error-message
  picker;
- `MonthsToZeroCard`: the card's own formatter, its labels, the motivational tiers and the
  progress bar.

## How the model is built

- **Values and objects.** Money is an exact `real`. A debt is a class whose mutable fields (principal, status, interest
  paid, months paid) the methods update in place. `Snap()` gives the debt's value as a datatype.
  Every payment method is proved equal to a function on that value (`Pay`, `PayDown`, `TowerPay`,
  `Accrue`).
- **Runs.** A simulation is a method with a `while` loop over fresh working copies of the debts.
  It is proved equal to a recursive specification (`RunFrom` → `Simulation`/`Simulate`). The
  properties of a run (stopping, numbering, totals, final debts) are proved as lemmas on that
  specification. A predicate `Mirrors(objects, values)` keeps the objects and the specification
  values in step.
- **Orderings.** Python's stable `sort` is modelled as positions sorted by (key, position).
  `reverse=True` is modelled as ascending order on the negated key, which keeps Python's stability
  guarantee. `min`/`max` with a key become the first minimal or maximal position (`Ordering`).
- **Hybrid score.** The score `principal / apr ** 0.5` is irrational in general. The model ranks
  by `principal·|principal|/apr` instead, a strictly increasing transform of the score when
  `apr > 0`. `Common.HybridKeyOrdersScores` proves that both give the same order and the same
  ties. An active debt with `apr <= 0` makes Python's `Decimal` raise. The model returns a
  `Failure` carrying the error for that case.
- **Python and JavaScript semantics.** Python's `int()` truncation is `Common.Trunc`.
  JavaScript's truncating `%` is `ApiUtils.RemainingMonths`. A calendar date `now + 30·(m−1)` days
  is kept as the day offset `30·(m−1)`.

## Model

| member | source | states |
|---|---|---|
| Common.Trunc | backend/services/snowball_strategy.py:87 | Python `int()` of a quotient truncates toward zero: the result is the whole part, below or above the quotient by less than one according to its sign |
| Common.HybridKeyOrdersScores | backend/services/simulation_engine.py:212 | for debts with positive APR, the key p·\|p\|/apr orders and ties debts exactly as the score p/√apr does, so ranking by either picks the same debt |
| Common.UpdateInfo | backend/services/simple_simulation_engine.py:160-165 | the month's entry for the paid debt (the first entry with its id) gets the new balance and status and has the payment added to it; every other entry, and the list length, is unchanged; no entry with that id leaves the list as it was |
| Common.UpdateDebtInfo | backend/services/simple_simulation_engine.py:160-165 | the loop that searches the month's entries and breaks at the first matching id computes exactly `UpdateInfo` |
| Common.FirstSettledMonth | backend/services/simple_simulation_engine.py:196-201 | finds the first month whose total balance is at most zero; none exists exactly when every month still owes something |
| Common.FindDebtFreeDate | backend/services/new_simulation_engine.py:166-171 | the loop that breaks at the first settled month returns that month's date offset, or none |
| Common.SumsOfAppendedMonth | backend/services/simple_simulation_engine.py:112-113 | appending a month adds exactly that month's interest and payments to the run's interest and payment sums |
| Ordering.FirstMinIndex | backend/services/simulation_engine.py:209 | Python `min` with a key: the returned position has the smallest key, and every earlier position has a strictly larger key (ties go to the first) |
| Ordering.FirstMaxIndex | backend/services/simulation_engine.py:206 | Python `max` with a key: the returned position has the largest key, and every earlier position has a strictly smaller key |
| Ordering.SortedPositions | backend/services/simple_simulation_engine.py:103 | the sort returns a permutation of all positions |
| Ordering.SortedPositionsIsPermutation | backend/services/simple_simulation_engine.py:103 | Python's stable sort: the result holds every position and is ordered by key, with equal keys kept in their original order |
| Ordering.SortedHeadIsFirstMin | backend/services/snowball_strategy.py:28-61 | the head of the stable ascending sort is the element `min` picks |
| Ordering.SortedNegatedHeadIsFirstMax | backend/services/two_tower_simulation_engine.py:89 | the head of a `reverse=True` sort is the element `max` picks |
| Ordering.Where | backend/services/simulation_engine.py:200 | a list comprehension with a condition keeps, in order, exactly the positions that satisfy it |
| Ordering.SortedSubset | backend/services/new_simulation_engine.py:105 | sorting a filtered list gives a permutation of it, ordered by key and then by original position |
| Ordering.SortedSubsetMembers | backend/services/new_simulation_engine.py:105 | the sorted list holds exactly the members of the filtered list |
| Ordering.SortedSubsetHead | backend/services/simple_simulation_engine.py:153-154 | the head of the sorted list is the first element of the filtered list with the smallest key |
| Ordering.FirstMinAmongPositions | backend/services/snowball_strategy.py:28 | `min` over the active debts picks an active debt whose key is no larger than any other active debt's, and strictly smaller than any earlier one's |
| Ordering.FirstMaxAmongPositions | backend/services/avalanche_strategy.py:28 | `max` over the active debts picks an active debt whose key is no smaller than any other active debt's, and strictly larger than any earlier one's |
| Ordering.SortListSorted | backend/services/hybrid_strategy.py:36 | sorting distinct positions by insertion yields a stably sorted list |
| Ordering.InsertPositionSorted | backend/services/hybrid_strategy.py:36 | inserting a new position into a stably sorted list keeps it stably sorted |
| Ordering.PickPermutation | backend/services/hybrid_strategy.py:81-82 | the values picked at two permutations of positions are a permutation of each other, so their sums agree |
| SimulationEngine.WorkingCopies | backend/services/simulation_engine.py:96-98 | each working copy keeps the debt's data, sets its original principal to the principal, and starts with zero interest paid and zero months paid |
| SimulationEngine.InterestBounds | backend/services/simulation_engine.py:30-41 | of `MonthlyInterest`: the monthly interest is non-negative for a non-negative balance and rate; daily compounding charges at least simple interest over 30 days; any other compounding charges nothing |
| SimulationEngine.Pay | backend/services/simulation_engine.py:43-74 | an inactive debt is untouched; an active debt is charged the month's interest and one more month; it is paid exactly when the payment covers principal plus interest, and then its balance is zero; otherwise the shortfall is the new positive balance; principal payment plus the new balance equals what was owed |
| SimulationEngine.Debt.constructor | backend/services/simulation_engine.py:15-28 | a new debt holds the given data, zero interest paid, zero months paid, and the principal as its original principal |
| SimulationEngine.Debt.ApplyPayment | backend/services/simulation_engine.py:43-74 | the in-place update and its result dictionary are exactly `Pay` on the old state |
| SimulationEngine.ActiveIndices | backend/services/simulation_engine.py:117 | lists, in order, exactly the positions of the active debts |
| SimulationEngine.HighestAprTarget | backend/services/simulation_engine.py:206 | the avalanche target is an active debt with the highest APR, the first one on ties |
| SimulationEngine.SmallestBalanceTarget | backend/services/simulation_engine.py:209 | the snowball target is an active debt with the smallest balance, the first one on ties |
| SimulationEngine.LowestScoreTarget | backend/services/simulation_engine.py:210-212 | the hybrid target is an active debt with the lowest score key, the first one on ties |
| SimulationEngine.FirstActiveTarget | backend/services/simulation_engine.py:213-214 | for an unknown strategy the target is the first active debt |
| SimulationEngine.TargetDebt | backend/services/simulation_engine.py:198-214 | there is no target exactly when no debt is active; the only error is the hybrid strategy with an active debt of non-positive APR; otherwise the target is the one its strategy names |
| SimulationEngine.MinStep | backend/services/simulation_engine.py:122-150 | one minimum payment changes only its own debt; an active debt adds its minimum to the month's and the run's payments and adds one entry; a debt retired by its minimum returns that minimum to the extra pool |
| SimulationEngine.MinStepChargesInterestTwice | backend/services/simulation_engine.py:122-132 | a minimum payment adds interest to the balance first, and the payment call then charges interest again on the raised balance; the debt's own interest total grows by both, while the month's and run's totals grow only by the first |
| SimulationEngine.MinPassPayments | backend/services/simulation_engine.py:122-134 | after the minimum pass, the payments made this month are the sum of the active debts' minimums |
| SimulationEngine.MinPassFreed | backend/services/simulation_engine.py:147-150 | after the minimum pass, the extra pool has grown by the minimums of exactly the debts that the pass retired |
| SimulationEngine.MinPassEntries | backend/services/simulation_engine.py:136-145 | the minimum pass records one entry per active debt |
| SimulationEngine.PayExtra | backend/services/simulation_engine.py:155-166 | paying the pool to one debt changes only that debt, by `Pay` with the whole pool; the month's and the run's payments grow by the pool; the pool then holds the debt's minimum if it was retired and nothing otherwise |
| SimulationEngine.ExtraStep | backend/services/simulation_engine.py:152-166 | with no extra pool, or no active debt, nothing changes; the step fails only when the strategy cannot pick a target; otherwise the debt `TargetDebt` picks for the strategy, and only that debt, is paid the whole pool by `Pay`; the pool becomes that debt's minimum exactly when the pool covers its balance plus the month's interest, and 0 otherwise; interest totals are unchanged |
| SimulationEngine.ExtraPoolAfterMonth | backend/services/simulation_engine.py:147-166 | across a month, the pool is the previous pool plus the freed minimums; a positive pool goes whole to the strategy's target of the debts after the minimums, and what is carried to the next month is that target's minimum if the pool covered what it owed, and 0 otherwise |
| SimulationEngine.Month | backend/services/simulation_engine.py:105-168 | a successful month appends one record numbered m+1, dated 30·m days after the start, and keeps earlier records |
| SimulationEngine.MonthAccounting | backend/services/simulation_engine.py:121-168 | the run's interest and payment totals grow by exactly the new month's figures, and the month has one entry per active debt |
| SimulationEngine.MonthKeepsRecords | backend/services/simulation_engine.py:105-168 | a month keeps records numbered 1..n and keeps run totals equal to the sums over the records |
| SimulationEngine.RunFrom | backend/services/simulation_engine.py:105-119 | the run only appends to the records, and every debt evolves by payments only |
| SimulationEngine.RunFromDone | backend/services/simulation_engine.py:105-119 | the run stops unchanged at the horizon or once no debt is active |
| SimulationEngine.RunFromStops | backend/services/simulation_engine.py:105-119 | the run never exceeds the horizon, and a run shorter than the horizon ends with no active debt |
| SimulationEngine.RunFromRecords | backend/services/simulation_engine.py:105-168 | the records of a whole run stay numbered, and the totals stay the sums over the records |
| SimulationEngine.SimulateSuccess | backend/services/simulation_engine.py:170-196 | a completed run is summarised into the result |
| SimulationEngine.SimulateFailure | backend/services/simulation_engine.py:170-196 | an error raised during the run is the simulation's error |
| SimulationEngine.SimulateRun | backend/services/simulation_engine.py:105-196 | of `Simulate`: a successful simulation's run has numbered records and matching totals, stops within the horizon, and ends with no active debt if it stopped early |
| SimulationEngine.SimulateMonths | backend/services/simulation_engine.py:105-185 | months to zero is the number of months; no active debt gives zero months; debt-free date is the last month's offset; totals are the sums over the months; interest saved is zero |
| SimulationEngine.SimulateFinalDebts | backend/services/simulation_engine.py:186-195 | one final debt per input, keeping id and name; an inactive debt is reported unchanged; an active one ends active or paid, with zero balance when paid and a non-negative balance when it started non-negative |
| SimulationEngine.CompareRuns | backend/services/simulation_engine.py:224-230 | the comparison fails exactly when a run failed; snowball and hybrid differ from their runs only in interest saved, which plus their own interest equals avalanche's interest |
| SimulationEngine.CompareFailsOnlyForHybrid | backend/services/simulation_engine.py:216-230 | comparing strategies fails exactly when the hybrid run fails |
| SimulationEngine.RunFromSucceeds | backend/services/simulation_engine.py:210-212 | a run under any strategy other than hybrid never fails |
| SimulationEngine.SimulateFailsOnlyForHybrid | backend/services/simulation_engine.py:210-212 | only a hybrid simulation can fail |
| SimulationEngine.ImpactOfRuns | backend/services/simulation_engine.py:242-254 | months saved and interest saved are base minus enhanced; the new debt-free date is the enhanced one; a positive additional extra fails (the float-by-Decimal division raises); otherwise the ROI is zero |
| SimulationEngine.CopyDebts | backend/services/simulation_engine.py:97-98 | the loop creates distinct fresh objects that hold the working copies of the input debts |
| SimulationEngine.MinimumPaymentStep | backend/services/simulation_engine.py:122-150 | one in-place minimum payment is exactly `MinStep` |
| SimulationEngine.ApplyMinimumPayments | backend/services/simulation_engine.py:122-150 | the minimum-payment loop computes exactly the minimum pass over all debts |
| SimulationEngine.PayExtraTo | backend/services/simulation_engine.py:152-166 | paying the pool to one target in place is exactly `PayExtra` |
| SimulationEngine.ApplyExtraPayment | backend/services/simulation_engine.py:152-166 | the extra-payment step is exactly `ExtraStep` |
| SimulationEngine.SimulateMonth | backend/services/simulation_engine.py:106-168 | one month in place is the minimum pass followed by the extra step |
| SimulationEngine.RunMonth | backend/services/simulation_engine.py:105-168 | the loop body moves the run one month forward without changing where the run ends |
| SimulationEngine.SimulationEngine.constructor | backend/services/simulation_engine.py:80-81 | the horizon in months is twelve times the given years |
| SimulationEngine.SimulationEngine.RunSimulation | backend/services/simulation_engine.py:83-196 | the method returns exactly the specified simulation of the caller's debts (which it does not modify) |
| SimulationEngine.SimulationEngine.CompareStrategies | backend/services/simulation_engine.py:216-230 | the result is the comparison of the three strategies' simulations |
| SimulationEngine.SimulationEngine.CalculateExtraPaymentImpact | backend/services/simulation_engine.py:232-255 | the result is the impact of the base run against the run with the added extra |
| SimpleSimulationEngine.MonthlyInterest | backend/services/simple_simulation_engine.py:20-22 | twelve months of interest equal principal × APR, and the interest is non-negative for non-negative inputs |
| SimpleSimulationEngine.HomeLoanFirstMonthInterest | backend/services/simple_simulation_engine.py:20-22 | a home loan of 672 720 at 9.58% accrues 5 370.548 in its first month |
| SimpleSimulationEngine.Accrue | backend/services/simple_simulation_engine.py:24-32 | an inactive debt accrues nothing; an active one adds the month's interest to its balance and its interest total, and nothing else changes |
| SimpleSimulationEngine.PayDown | backend/services/simple_simulation_engine.py:34-57 | a payment that covers the balance pays the debt off at zero; a smaller one lowers the balance by the payment, which stays positive; no interest is charged here; months paid grows by one |
| SimpleSimulationEngine.SimpleDebt.constructor | backend/services/simple_simulation_engine.py:10-18 | a new debt is active with the given data and zero interest paid and months paid |
| SimpleSimulationEngine.SimpleDebt.Copy | backend/services/simple_simulation_engine.py:73 | the deep copy holds the same state as the original |
| SimpleSimulationEngine.SimpleDebt.ApplyMonthlyInterest | backend/services/simple_simulation_engine.py:24-32 | the in-place update and the returned interest are exactly `Accrue` |
| SimpleSimulationEngine.SimpleDebt.ApplyPayment | backend/services/simple_simulation_engine.py:34-57 | the in-place update and the result are exactly `PayDown` |
| SimpleSimulationEngine.ActiveIndices | backend/services/simple_simulation_engine.py:85 | lists, in order, exactly the active debts |
| SimpleSimulationEngine.RankedActive | backend/services/simple_simulation_engine.py:103 | the active debts, all of them, sorted stably by the strategy's key |
| SimpleSimulationEngine.RankedHeadIsBest | backend/services/simple_simulation_engine.py:153-154 | the first ranked debt is active, with the highest APR (avalanche) or the smallest balance (snowball), and strictly better than every earlier debt |
| SimpleSimulationEngine.RankedActiveEmpty | backend/services/simple_simulation_engine.py:149-151 | the ranking is empty exactly when no debt is active |
| SimpleSimulationEngine.RetiringLowersActiveCount | backend/services/simple_simulation_engine.py:147-177 | paying off the target lowers the number of active debts by one, which bounds the reallocation loop |
| SimpleSimulationEngine.InterestStep | backend/services/simple_simulation_engine.py:107-113 | interest on one debt changes only that debt and only the month's interest, never a status or the payments |
| SimpleSimulationEngine.InterestPassFacts | backend/services/simple_simulation_engine.py:105-113 | the interest pass keeps every status and the payments, and raises the run's interest by exactly the month's interest |
| SimpleSimulationEngine.MinStep | backend/services/simple_simulation_engine.py:115-140 | a minimum payment changes only its debt; an active debt adds its minimum to the payments and one entry; an inactive debt changes nothing |
| SimpleSimulationEngine.MinimumPassFacts | backend/services/simple_simulation_engine.py:115-140 | the minimum pass touches only the listed debts, keeps interest, and raises the run's payments by the month's payments |
| SimpleSimulationEngine.PayRemaining | backend/services/simple_simulation_engine.py:157-169 | the remaining payment is paid to the target and added to the month's and the run's payments |
| SimpleSimulationEngine.Waterfall | backend/services/simple_simulation_engine.py:147-177 | the reallocation loop ends, changes debts only by payments, and moves no interest; with no money or no active debt nothing changes; otherwise the first debt in strategy order (the one `RankedHeadIsBest` characterises) ends paid exactly when the money covers its balance, and if it does not, that debt alone is paid the money by `PayDown` and the loop stops |
| SimpleSimulationEngine.WaterfallNextRound | backend/services/simple_simulation_engine.py:172-175 | a round that pays off the first-ranked debt passes exactly that debt's minimum on to the next round |
| SimpleSimulationEngine.WaterfallSpending | backend/services/simple_simulation_engine.py:147-177 | while some debt stays active, the loop spends all the money it starts with plus every positive minimum freed by the debts it pays off |
| SimpleSimulationEngine.BaselineExtra | backend/services/simple_simulation_engine.py:514-539 | with no positive extra or no active debt nothing changes; otherwise the whole extra is paid by `PayDown` to the first active debt of highest APR, and only to it, and the month's payments grow by exactly the extra |
| SimpleSimulationEngine.MonthOrder | backend/services/simple_simulation_engine.py:103 | the month's order lists distinct active debts |
| SimpleSimulationEngine.ExtraStageFacts | backend/services/simple_simulation_engine.py:142-177 | the extra stage changes debts only by payments, keeps interest and the month's entries, and adds its payments to the run's total |
| SimpleSimulationEngine.Month | backend/services/simple_simulation_engine.py:83-182 | a month appends one record numbered m+1 at day 30·m whose total balance is the active balance, and adds its interest and payments to the totals |
| SimpleSimulationEngine.RunFrom | backend/services/simple_simulation_engine.py:83-87 | the run only appends records, and debts evolve by payments and interest |
| SimpleSimulationEngine.MinimumsPaid | backend/services/simple_simulation_engine.py:115-125 | the minimum stage pays exactly the sum of the active debts' minimums, one entry per active debt |
| SimpleSimulationEngine.PoolAfterMinimums | backend/services/simple_simulation_engine.py:145 | what remains for reallocation is the extra payment plus the minimums of debts already retired |
| SimpleSimulationEngine.BaselineMonthPayments | backend/services/simple_simulation_engine.py:487-539 | a baseline month pays the active minimums, plus the extra when one is given |
| SimpleSimulationEngine.MonthEntries | backend/services/simple_simulation_engine.py:136 | each month holds one entry per debt active at its start |
| SimpleSimulationEngine.RunFromStops | backend/services/simple_simulation_engine.py:83-87 | the run never exceeds the horizon, and stops early only with no active debt |
| SimpleSimulationEngine.RunFromNumbered | backend/services/simple_simulation_engine.py:83-94 | records are numbered 1..n at 30-day steps |
| SimpleSimulationEngine.RunFromTotals | backend/services/simple_simulation_engine.py:112-169 | the run's totals stay the sums over its records |
| SimpleSimulationEngine.RunFacts | backend/services/simple_simulation_engine.py:83-182 | a run from the start stops within the horizon, early only with no active debt, its last record holds the balance still owed, and its records are numbered and summed |
| SimpleSimulationEngine.SimulationOfRun | backend/services/simple_simulation_engine.py:183-215 | the simulation result is the summary of the run |
| SimpleSimulationEngine.SimulationMonths | backend/services/simple_simulation_engine.py:196-209 | months to zero is the number of months, within the horizon, zero with no active debt; an early stop leaves no active debt; totals are the sums over the months |
| SimpleSimulationEngine.SimulationBalance | backend/services/simple_simulation_engine.py:180-208 | the final total balance is the last month's balance; when every debt is retired it is zero and a debt-free date exists |
| SimpleSimulationEngine.SimulationFinalDebts | backend/services/simple_simulation_engine.py:185-194 | one final debt per input with its id and name; inactive debts are reported as given; active ones end active or paid, at zero when paid |
| SimpleSimulationEngine.RetiredFacts | backend/services/simple_simulation_engine.py:196-208 | when no debt is left active the active balance is zero and a debt-free date is found |
| SimpleSimulationEngine.BaselineFacts | backend/services/simple_simulation_engine.py:446-567 | the baseline fails exactly on no debts (a message) or a non-positive horizon (Python's unbound loop variable); otherwise months to zero is the number of months, within the horizon, totals are the sums over the months, and every debt is reported under strategy "baseline" |
| SimpleSimulationEngine.BaselineOfRun | backend/services/simple_simulation_engine.py:446-567 | the baseline result is the summary of its run |
| SimpleSimulationEngine.CompareRuns | backend/services/simple_simulation_engine.py:412-444 | the differences are avalanche minus snowball, and avalanche is better exactly when it pays less interest |
| SimpleSimulationEngine.Comparison | backend/services/simple_simulation_engine.py:412-444 | comparison fails exactly with no debts; otherwise it compares the avalanche and snowball simulations |
| SimpleSimulationEngine.ImpactOfRuns | backend/services/simple_simulation_engine.py:397-410 | savings are base minus enhanced; the ROI times the additional extra is the interest saved, or zero without an additional extra |
| SimpleSimulationEngine.CopyDebts | backend/services/simple_simulation_engine.py:73 | the deep copies are distinct fresh objects holding the debts' state |
| SimpleSimulationEngine.ApplyInterest | backend/services/simple_simulation_engine.py:105-113 | the interest loop computes exactly the interest pass |
| SimpleSimulationEngine.ApplyMinimums | backend/services/simple_simulation_engine.py:115-140 | the minimum-payment loop computes exactly the minimum pass |
| SimpleSimulationEngine.ReallocatePayments | backend/services/simple_simulation_engine.py:147-177 | the reallocation `while` loop computes exactly the waterfall |
| SimpleSimulationEngine.ApplyBaselineExtra | backend/services/simple_simulation_engine.py:514-539 | the baseline's extra loop computes exactly `BaselineExtra` |
| SimpleSimulationEngine.RunMonths | backend/services/simple_simulation_engine.py:83-182 | the month loop computes exactly the specified run; it ends by the horizon or with no active debt |
| SimpleSimulationEngine.ReportFinalDebts | backend/services/simple_simulation_engine.py:185-194 | the loop reports exactly the final-debt list of the working debts |
| SimpleSimulationEngine.SimpleSimulationEngine.constructor | backend/services/simple_simulation_engine.py:63-64 | a new engine holds no debts |
| SimpleSimulationEngine.SimpleSimulationEngine.AddDebt | backend/services/simple_simulation_engine.py:66-68 | the debt is appended to the engine's list |
| SimpleSimulationEngine.SimpleSimulationEngine.SimulateAvalanche | backend/services/simple_simulation_engine.py:70-215 | returns the avalanche simulation of the engine's debts, which are left untouched |
| SimpleSimulationEngine.SimpleSimulationEngine.SimulateSnowball | backend/services/simple_simulation_engine.py:217-362 | returns the snowball simulation of the engine's debts |
| SimpleSimulationEngine.SimpleSimulationEngine.SimulateBaseline | backend/services/simple_simulation_engine.py:446-567 | returns the baseline simulation, including its two failure cases |
| SimpleSimulationEngine.SimpleSimulationEngine.CompareStrategies | backend/services/simple_simulation_engine.py:412-444 | returns the comparison of the engine's debts |
| SimpleSimulationEngine.SimpleSimulationEngine.CalculateExtraPaymentImpact | backend/services/simple_simulation_engine.py:378-410 | replaces the engine's debts with the given ones and returns the impact of the added extra |
| TwoTowerSimulationEngine.MonthlyInterest | backend/services/two_tower_simulation_engine.py:20-22 | twelve months of interest equal principal × APR; non-negative for non-negative inputs |
| TwoTowerSimulationEngine.TowerPay | backend/services/two_tower_simulation_engine.py:24-56 | paid off exactly when the payment covers balance plus interest; otherwise interest is paid first, capped by the payment, and any rest is the principal payment; the new balance is balance plus interest minus the principal payment, non-negative for non-negative inputs; the interest total grows by the interest paid |
| TwoTowerSimulationEngine.PartialPaymentKeepsInterest | backend/services/two_tower_simulation_engine.py:42-46 | a payment covering the interest but not the balance leaves the balance plus interest minus payment, plus the interest again (the source adds it on top) |
| TwoTowerSimulationEngine.PaymentBelowInterestIsLost | backend/services/two_tower_simulation_engine.py:42-46 | a payment below the interest is booked as interest yet the balance still grows by the full interest |
| TwoTowerSimulationEngine.PayEvolves | backend/services/two_tower_simulation_engine.py:24-56 | a payment changes only balance, status, interest paid and months paid |
| TwoTowerSimulationEngine.AvailablePaymentIsFixed | backend/services/two_tower_simulation_engine.py:59-68 | the payment tower always offers the total minimums plus the extra |
| TwoTowerSimulationEngine.GetActiveDebts | backend/services/two_tower_simulation_engine.py:77-79 | lists, in order, exactly the active debts |
| TwoTowerSimulationEngine.TotalMinPaymentsAllActive | backend/services/two_tower_simulation_engine.py:81-83 | with every debt active the total is the sum of all minimums |
| TwoTowerSimulationEngine.TotalMinPaymentsNoneActive | backend/services/two_tower_simulation_engine.py:81-83 | with no active debt the total is zero |
| TwoTowerSimulationEngine.SortByStrategy | backend/services/two_tower_simulation_engine.py:85-93 | returns every active debt once and nothing else |
| TwoTowerSimulationEngine.SortByStrategyOrder | backend/services/two_tower_simulation_engine.py:85-93 | avalanche orders by APR descending, snowball by balance ascending, both stable; other strategies keep list order |
| TwoTowerSimulationEngine.SortByOtherStrategy | backend/services/two_tower_simulation_engine.py:92-93 | an unknown strategy returns the active debts unsorted |
| TwoTowerSimulationEngine.SortByStrategyEmpty | backend/services/two_tower_simulation_engine.py:85-93 | the sorted list is empty exactly when no debt is active |
| TwoTowerSimulationEngine.MinimumShare | backend/services/two_tower_simulation_engine.py:166-173 | a debt receives its minimum, or the whole remainder when that is smaller |
| TwoTowerSimulationEngine.MinStep | backend/services/two_tower_simulation_engine.py:153-195 | a step changes only its debt, moves money from the remainder to the month's payments, keeps the remainder non-negative, and does nothing once the budget is spent or the debt is inactive |
| TwoTowerSimulationEngine.MinStepVisits | backend/services/two_tower_simulation_engine.py:161-191 | a visited debt is paid its share, which leaves the remainder; the month records its interest and an entry with its id and the share |
| TwoTowerSimulationEngine.MinimumPassFacts | backend/services/two_tower_simulation_engine.py:152-195 | across the pass, payments plus remainder are conserved and the remainder stays non-negative |
| TwoTowerSimulationEngine.MinimumPassStops | backend/services/two_tower_simulation_engine.py:154-155 | once the budget is spent the pass is finished and later debts are untouched |
| TwoTowerSimulationEngine.PayLeftover | backend/services/two_tower_simulation_engine.py:206-218 | the leftover is paid to the target and added to payments, with no change to the interest totals |
| TwoTowerSimulationEngine.LeftoverFacts | backend/services/two_tower_simulation_engine.py:197-222 | the leftover is added to payments exactly when it is positive and some debt is active; nothing changes with no active debt |
| TwoTowerSimulationEngine.LeftoverChargesInterestAgain | backend/services/two_tower_simulation_engine.py:199-206 | the leftover payment runs the full payment routine on the first debt in strategy order, which charges it interest a second time without adding it to the month's interest |
| TwoTowerSimulationEngine.Month | backend/services/two_tower_simulation_engine.py:122-227 | a month appends a record numbered m+1 at day 30·m with the active balance, and adds its figures to the totals |
| TwoTowerSimulationEngine.MonthPayments | backend/services/two_tower_simulation_engine.py:165-218 | a month never pays more than the budget, and pays all of it while a debt stays active |
| TwoTowerSimulationEngine.RunFrom | backend/services/two_tower_simulation_engine.py:122-127 | the run only appends records, and debts evolve by payments only |
| TwoTowerSimulationEngine.RunFromStops | backend/services/two_tower_simulation_engine.py:122-127 | the run stays within the horizon and stops early only with no active debt |
| TwoTowerSimulationEngine.RunFromNumbered | backend/services/two_tower_simulation_engine.py:122-133 | records are numbered 1..n at 30-day steps |
| TwoTowerSimulationEngine.RunFromTotals | backend/services/two_tower_simulation_engine.py:161-218 | run totals stay the sums over the records |
| TwoTowerSimulationEngine.RunFromBudget | backend/services/two_tower_simulation_engine.py:142-218 | every month but the last spends the whole budget, and none spends more |
| TwoTowerSimulationEngine.SimulationOfRun | backend/services/two_tower_simulation_engine.py:229-249 | the simulation result is the summary of the run |
| TwoTowerSimulationEngine.SimulationMonths | backend/services/two_tower_simulation_engine.py:241-249 | months to zero counts the months, within the horizon and zero with no active debt; totals are the sums over the months |
| TwoTowerSimulationEngine.SimulationBudget | backend/services/two_tower_simulation_engine.py:114-115 | each month pays at most the total minimums plus the extra, and every month but the last pays exactly that |
| TwoTowerSimulationEngine.SimulationFinalDebts | backend/services/two_tower_simulation_engine.py:229-239 | one final debt per input with id and name; inactive ones as given; active ones end active or paid, at zero when paid; balances stay non-negative for non-negative inputs |
| TwoTowerSimulationEngine.SimulationBalance | backend/services/two_tower_simulation_engine.py:225 | the last month's total is the balance of the debts left active |
| TwoTowerSimulationEngine.ImpactOfRuns | backend/services/two_tower_simulation_engine.py:403-413 | savings are base minus enhanced; the ROI times the additional extra is the interest saved, or zero without one |
| TwoTowerSimulationEngine.ImpactStrategy | backend/services/two_tower_simulation_engine.py:397-400 | "avalanche" runs avalanche; every other strategy runs snowball |
| TwoTowerSimulationEngine.ExtraImpactMonths | backend/services/two_tower_simulation_engine.py:394-413 | both runs take at most the default 600 months, so months saved lies between −600 and 600 |
| TwoTowerSimulationEngine.NewDebts | backend/services/two_tower_simulation_engine.py:99-106 | one new active debt per row, with the row's data |
| TwoTowerSimulationEngine.NewDebtsAllActive | backend/services/two_tower_simulation_engine.py:99-115 | every constructed debt is active, so the budget is the total minimums plus the extra |
| TwoTowerSimulationEngine.TwoTowerDebt.constructor | backend/services/two_tower_simulation_engine.py:10-18 | a new debt is active with the given data and nothing paid |
| TwoTowerSimulationEngine.TwoTowerDebt.ApplyPayment | backend/services/two_tower_simulation_engine.py:24-56 | the in-place update and result are exactly `TowerPay` |
| TwoTowerSimulationEngine.ApplyMinimums | backend/services/two_tower_simulation_engine.py:151-195 | the minimum loop, with its early break, computes exactly the minimum pass |
| TwoTowerSimulationEngine.ApplyLeftover | backend/services/two_tower_simulation_engine.py:197-222 | the leftover step computes exactly `Leftover` |
| TwoTowerSimulationEngine.RunMonths | backend/services/two_tower_simulation_engine.py:122-227 | the month loop computes exactly the specified run |
| TwoTowerSimulationEngine.ReportFinalDebts | backend/services/two_tower_simulation_engine.py:229-239 | the loop reports exactly the final-debt list |
| TwoTowerSimulationEngine.TwoTowerSimulationEngine.constructor | backend/services/two_tower_simulation_engine.py:99-106 | the engine's debts are the debts built from the rows |
| TwoTowerSimulationEngine.TwoTowerSimulationEngine.SimulateAvalanche | backend/services/two_tower_simulation_engine.py:108-249 | returns the avalanche simulation of the engine's debts |
| TwoTowerSimulationEngine.TwoTowerSimulationEngine.SimulateSnowball | backend/services/two_tower_simulation_engine.py:251-392 | returns the snowball simulation of the engine's debts |
| TwoTowerSimulationEngine.TwoTowerSimulationEngine.CalculateExtraPaymentImpact | backend/services/two_tower_simulation_engine.py:394-414 | returns the impact of the added extra under the chosen strategy |
| NewSimulationEngine.DebtStatus.Name | backend/services/new_simulation_engine.py:18 | a status reports "active" or "paid" exactly for the matching state |
| NewSimulationEngine.MonthlyInterest | backend/services/new_simulation_engine.py:22-28 | monthly compounding charges principal × APR / 12; any other compounding charges nothing |
| NewSimulationEngine.DailyCompoundingChargesNothing | backend/services/new_simulation_engine.py:24-28 | a daily-compounding debt accrues no interest in this engine |
| NewSimulationEngine.PayFacts | backend/services/new_simulation_engine.py:30-63 | an active debt is charged interest; it is paid off exactly when the payment covers balance plus interest; otherwise the new balance is balance plus interest minus payment |
| NewSimulationEngine.PaymentBelowInterest | backend/services/new_simulation_engine.py:50-52 | a payment below the interest gives a negative principal payment and a growing balance |
| NewSimulationEngine.PayNeverNegative | backend/services/new_simulation_engine.py:30-63 | an active debt's balance after a payment is never negative, and is zero exactly when it is paid |
| NewSimulationEngine.Debt.constructor | backend/services/new_simulation_engine.py:10-20 | a new debt is active with the given data and nothing paid |
| NewSimulationEngine.Debt.Copy | backend/services/new_simulation_engine.py:79 | the deep copy holds the same state |
| NewSimulationEngine.Debt.ApplyPayment | backend/services/new_simulation_engine.py:30-63 | the in-place update and result are exactly `Pay` |
| NewSimulationEngine.ActiveIndices | backend/services/new_simulation_engine.py:87 | lists, in order, exactly the active debts |
| NewSimulationEngine.RankedActive | backend/services/new_simulation_engine.py:104-105 | a stable sort of exactly the active debts by the strategy key |
| NewSimulationEngine.RankedDistinct | backend/services/new_simulation_engine.py:104-105 | no debt appears twice in the ranking |
| NewSimulationEngine.RankedHeadIsBest | backend/services/new_simulation_engine.py:104-105 | the first ranked debt has the highest APR (avalanche) or smallest balance (snowball), strictly better than earlier debts |
| NewSimulationEngine.RankedActiveEmpty | backend/services/new_simulation_engine.py:87-89 | the ranking is empty exactly when no debt is active |
| NewSimulationEngine.RankedMinimums | backend/services/new_simulation_engine.py:108 | the ranked debts' minimums sum to the active minimums |
| NewSimulationEngine.PayStep | backend/services/new_simulation_engine.py:112-147 | one payment changes only its debt; an active debt adds the payment, its interest and one entry to the month |
| NewSimulationEngine.MonthPassEvolves | backend/services/new_simulation_engine.py:111-147 | the month's payment loop changes debts only by payments |
| NewSimulationEngine.MonthPassPaidAt | backend/services/new_simulation_engine.py:111-147 | each ranked debt ends the month paid exactly its own share |
| NewSimulationEngine.MonthPassRecord | backend/services/new_simulation_engine.py:121-147 | the month's record lists the ranked debts with their shares, with the shares and interests summed |
| NewSimulationEngine.Shares | backend/services/new_simulation_engine.py:121-125 | each ranked debt's share is its minimum, and the first one also gets the extra |
| NewSimulationEngine.SharesSum | backend/services/new_simulation_engine.py:121-125 | the shares add up to the minimums plus the extra |
| NewSimulationEngine.Month | backend/services/new_simulation_engine.py:85-152 | a month appends a record numbered m+1 at day 30·m with the active balance, and adds its figures to the totals |
| NewSimulationEngine.MonthAllocation | backend/services/new_simulation_engine.py:104-147 | each ranked debt is paid its share, entries follow the ranking, and inactive debts are untouched |
| NewSimulationEngine.MonthPayments | backend/services/new_simulation_engine.py:121-132 | a month pays the active minimums plus the extra and records the interest of every active debt |
| NewSimulationEngine.RunFrom | backend/services/new_simulation_engine.py:85-89 | the run only appends records, and debts evolve by payments only |
| NewSimulationEngine.RunFromStops | backend/services/new_simulation_engine.py:85-89 | the run stays within the horizon and stops early only with no active debt |
| NewSimulationEngine.RunFromNumbered | backend/services/new_simulation_engine.py:85-100 | records are numbered 1..n at 30-day steps |
| NewSimulationEngine.RunFromTotals | backend/services/new_simulation_engine.py:121-147 | run totals stay the sums over the records |
| NewSimulationEngine.SimulationMonths | backend/services/new_simulation_engine.py:166-177 | months to zero counts the months; totals are sums over the months; the debt-free date exists exactly when some month is settled, and is no later than any settled month |
| NewSimulationEngine.SimulationFinalDebts | backend/services/new_simulation_engine.py:154-164 | one final debt per input with id and name; inactive ones as given; active ones end active or paid, at zero when paid, never negative for a non-negative start |
| NewSimulationEngine.SimulationFinalBalance | backend/services/new_simulation_engine.py:150-178 | the final total balance is the last month's total |
| NewSimulationEngine.CopyDebts | backend/services/new_simulation_engine.py:79 | the deep copies are distinct fresh objects holding the debts' state |
| NewSimulationEngine.PayMonth | backend/services/new_simulation_engine.py:111-147 | the payment loop computes exactly the month pass |
| NewSimulationEngine.RunMonths | backend/services/new_simulation_engine.py:85-152 | the month loop computes exactly the specified run |
| NewSimulationEngine.ReportFinalDebts | backend/services/new_simulation_engine.py:154-164 | the loop reports exactly the final-debt list |
| NewSimulationEngine.SimulationEngine.constructor | backend/services/new_simulation_engine.py:69-70 | a new engine holds no debts |
| NewSimulationEngine.SimulationEngine.AddDebt | backend/services/new_simulation_engine.py:72-74 | the debt is appended |
| NewSimulationEngine.SimulationEngine.SimulateAvalanche | backend/services/new_simulation_engine.py:76-185 | returns the avalanche simulation of the engine's debts |
| NewSimulationEngine.SimulationEngine.SimulateSnowball | backend/services/new_simulation_engine.py:187-297 | returns the snowball simulation of the engine's debts |
| AvalancheStrategy.GetRecommendation | backend/services/avalanche_strategy.py:21-47 | no target exactly when no debt is active; else the target is an active debt with the highest APR (first on ties), and the annual saving is twelve times its monthly interest |
| AvalancheStrategy.RecommendationIsEngineTarget | backend/services/avalanche_strategy.py:28 | the recommended debt is the one the engine's avalanche strategy targets |
| AvalancheStrategy.SavingsNonNegative | backend/services/avalanche_strategy.py:31-32 | savings are non-negative and the annual figure is at least the monthly one |
| AvalancheStrategy.GetMarginalBenefit | backend/services/avalanche_strategy.py:49-71 | no benefit exactly when the extra is not positive or no debt is active; else the benefit per rand is the target's APR / 12 and the benefits scale with the extra |
| AvalancheStrategy.BenefitIsBestRate | backend/services/avalanche_strategy.py:58-63 | no active debt offers a higher benefit per rand |
| AvalancheStrategy.MonthlyBenefitIsInterestOnExtra | backend/services/avalanche_strategy.py:69 | the monthly benefit is the month's interest on the extra amount |
| AvalancheStrategy.AnnualBenefitAsComputed | backend/services/avalanche_strategy.py:70 | the annual benefit is the extra × APR / 100, so it is twelve monthly benefits only at zero APR |
| AvalancheStrategy.AvalancheStrategy.constructor | backend/services/avalanche_strategy.py:14-15 | the strategy's engine has the default 50-year horizon |
| AvalancheStrategy.AvalancheStrategy.CalculateStrategy | backend/services/avalanche_strategy.py:17-19 | returns the engine's avalanche simulation, which never fails |
| SnowballStrategy.MonthsToPayoffMeaning | backend/services/snowball_strategy.py:79-87 | of `MonthsToPayoff`: with no net payment the result is 999; otherwise it is the number of whole net payments within the balance |
| SnowballStrategy.GetRecommendation | backend/services/snowball_strategy.py:21-52 | no target exactly when no debt is active; else the smallest active balance (first on ties), its months to payoff, and a quick win exactly under twelve months |
| SnowballStrategy.RecommendationIsEngineTarget | backend/services/snowball_strategy.py:28 | the recommended debt is the engine's snowball target |
| SnowballStrategy.SortedByBalance | backend/services/snowball_strategy.py:61 | the active debts, all of them, stably sorted by balance |
| SnowballStrategy.MotivationalMetricsMeaning | backend/services/snowball_strategy.py:54-77 | `GetMotivationalMetrics` counts the active debts and the quick wins, sums the quick wins' balances, names the smallest debt, and motivation is "high" exactly when a quick win exists |
| SnowballStrategy.SnowballStrategy.constructor | backend/services/snowball_strategy.py:14-15 | the strategy's engine has the default 50-year horizon |
| SnowballStrategy.SnowballStrategy.CalculateStrategy | backend/services/snowball_strategy.py:17-19 | returns the engine's snowball simulation, which never fails |
| HybridStrategy.ScoringFails | backend/services/hybrid_strategy.py:29-33 | scoring fails exactly when an active debt has non-positive APR, with the error of the first such debt |
| HybridStrategy.ScoreActiveDebts | backend/services/hybrid_strategy.py:28-33 | the scoring loop computes exactly the scoring specification |
| HybridStrategy.RankingFailsAsEngine | backend/services/hybrid_strategy.py:28-36 | the ranking fails exactly when the engine's hybrid target fails, with the same error |
| HybridStrategy.RankingMeaning | backend/services/hybrid_strategy.py:35-36 | `Ranking` is a permutation of the active debts, stably sorted by score |
| HybridStrategy.RankingHead | backend/services/hybrid_strategy.py:37 | the first ranked debt is the engine's hybrid target |
| HybridStrategy.RankingOrdersScores | backend/services/hybrid_strategy.py:30-36 | for any real scores p/√apr, the ranking is ascending in score with ties in list order |
| HybridStrategy.Rank | backend/services/hybrid_strategy.py:28-37 | the ranking code computes exactly the ranking specification |
| HybridStrategy.GetRecommendation | backend/services/hybrid_strategy.py:21-58 | returns exactly the recommendation specification |
| HybridStrategy.RecommendationMeaning | backend/services/hybrid_strategy.py:21-58 | of `RecommendationOf`: no target exactly when the engine finds none; fails exactly as the engine does; else the target is the engine's and all scores list the ranking in order |
| HybridStrategy.GetStrategyAnalysis | backend/services/hybrid_strategy.py:60-100 | returns exactly the analysis specification |
| HybridStrategy.AnalysisFailsAsRecommendation | backend/services/hybrid_strategy.py:62-69 | "No active debts" exactly with no active debt; fails exactly when the recommendation fails |
| HybridStrategy.AnalysisOfRanking | backend/services/hybrid_strategy.py:77-97 | `AnalysisOf` counts the active debts, sums the ranked balances, averages the ranked APRs and ranks them 1..n |
| HybridStrategy.AnalysisRanks | backend/services/hybrid_strategy.py:89-97 | priorities are ranked 1..n in ranking order, one per active debt |
| HybridStrategy.AnalysisTotals | backend/services/hybrid_strategy.py:81-82 | the total balance and the average APR are those of the active debts, whatever their order |
| HybridStrategy.HybridStrategy.constructor | backend/services/hybrid_strategy.py:14-15 | the strategy's engine has the default 50-year horizon |
| HybridStrategy.HybridStrategy.CalculateStrategy | backend/services/hybrid_strategy.py:17-19 | returns the engine's hybrid simulation |
| Text.ParseNatToString | frontend/src/utils/api.js:300 | the digits printed for a count read back as that count |
| ApiUtils.Years | frontend/src/utils/api.js:296 | `Math.floor(months / 12)`: twelve years fit in the months and thirteen do not |
| ApiUtils.RemainingMonths | frontend/src/utils/api.js:297 | JavaScript `%`: the remainder lies strictly between −12 and 12, takes the sign of the months and differs from them by a multiple of 12 |
| ApiUtils.SplitMonths | frontend/src/utils/api.js:296-297 | for non-negative months, 12·years + remainder gives back the months, with the remainder below 12 |
| ApiUtils.SplitNegativeMonths | frontend/src/utils/api.js:296-297 | for negative months not a multiple of 12, floor and truncating remainder recombine to twelve fewer months |
| ApiUtils.CountedRead | frontend/src/utils/api.js:300-304 | a printed count and its singular or plural unit read back as the count |
| ApiUtils.RoundTripUnderAYear | frontend/src/utils/api.js:299-300 | under a year the text reads back as the months |
| ApiUtils.RoundTripWholeYears | frontend/src/utils/api.js:301-302 | whole years read back as the months |
| ApiUtils.RoundTripYearsAndMonths | frontend/src/utils/api.js:303-304 | years and months read back as the months |
| ApiUtils.FormatRoundTrip | frontend/src/utils/api.js:295-305 | the text `FormatMonthsToYears` formats determines the number of months |
| ApiUtils.HandleApiError | frontend/src/utils/api.js:309-317 | the message is the server's error, the error's message or the default, and is never empty when the default is not |
| ApiUtils.HandleApiErrorPreference | frontend/src/utils/api.js:309-317 | the server's error wins over the error's own message, which wins over the default, each only when truthy |
| MonthsToZeroCard.CardFormatAgreesWithApi | frontend/src/components/MonthsToZeroCard.js:5-16 | the card's `FormatMonthsToYears` agrees with the API's exactly when years or remainder is zero; otherwise its "Xy Zm" text is shorter |
| MonthsToZeroCard.StrategyIcon | frontend/src/components/MonthsToZeroCard.js:18-29 | the default icon is shown exactly for an unknown strategy |
| MonthsToZeroCard.StrategyName | frontend/src/components/MonthsToZeroCard.js:31-42 | the default name is shown exactly for an unknown strategy |
| MonthsToZeroCard.StrategyLabels | frontend/src/components/MonthsToZeroCard.js:18-42 | a known strategy's name is its capitalised key, and distinct strategies get distinct icons and names |
| MonthsToZeroCard.PassedMonotone | frontend/src/components/MonthsToZeroCard.js:44-54 | more months never pass fewer thresholds |
| MonthsToZeroCard.MotivationalMessageByTier | frontend/src/components/MonthsToZeroCard.js:44-54 | `MotivationalMessage` gives the tier's message for the thresholds 12, 24 and 60, tiers only rise with more months, and the four messages differ |
| MonthsToZeroCard.ProgressWidth | frontend/src/components/MonthsToZeroCard.js:108 | the bar width is clamped between 0 and 100 percent |
| MonthsToZeroCard.ProgressMeaning | frontend/src/components/MonthsToZeroCard.js:108-113 | a full bar at zero months or fewer, an empty bar from 120 months on, linear in between and shrinking with more months; "On track!" exactly when the bar is not empty or the months are exactly 120, as `ProgressLabel` reads |
| DebtApi.NormalizeApr | backend/app.py:53-56 | a stored APR above 1 is a percentage: the result times 100 gives it back; an APR of at most 1 is kept |
| DebtApi.NormalizeAprMeaning | backend/app.py:53-56 | a stored APR above 1 is read as a percentage and divided by 100; normalising twice changes nothing exactly for APRs up to 100; valid APRs land in [0, 1] |
| DebtApi.DebtFromRow | backend/app.py:51-67 | the row becomes a new debt with its data and the normalised APR |
| DebtApi.FieldCheck | backend/app.py:130-135 | a field is rejected exactly when it is present and invalid; a value that is not a number gets status 500 with the `TypeError`; an out-of-range principal gets 400 "Principal must be positive", an APR outside [0, 100] gets 400 "APR must be between 0 and 100", and a minimum that is not positive gets 400 "Minimum payment must be positive" |
| DebtApi.FirstRejectionMeaning | backend/app.py:130-135 | the checks pass exactly when every present checked field is valid; otherwise the rejection is that of the first invalid field |
| DebtApi.FirstMissing | backend/app.py:124-127 | no field is missing exactly when every required field is present |
| DebtApi.FirstMissingMeaning | backend/app.py:124-127 | the reported field is the first required field that is absent |
| DebtApi.FindMissingField | backend/app.py:124-127 | the loop returns exactly the first missing field |
| DebtApi.CreateDebt | backend/app.py:120-156 | the handler's outcome is exactly `CreateOutcome` |
| DebtApi.CreateOutcomeMeaning | backend/app.py:124-153 | the insert runs exactly when the connection exists, all required fields are present, the principal is positive, the APR lies in [0, 100] and the minimum is positive; a missing field is reported by name with status 400; with every field there, the principal, then the APR, then the minimum is checked, each answered with status 500 and the `TypeError` when not a number and with status 400 and its own message when out of range; valid fields without a connection get 500 "Database connection failed" |
| DebtApi.PresentFieldsMeaning | backend/app.py:237-240 | the fields to update are exactly the updatable fields present in the request, in their listed order |
| DebtApi.BuildUpdate | backend/app.py:234-240 | the loop builds one `field = %s` per present field and the matching values |
| DebtApi.UpdateDebt | backend/app.py:216-257 | the handler's outcome is exactly `UpdateOutcome` |
| DebtApi.UpdateChecksOnlyPresent | backend/app.py:220-225 | an update validates only the fields it carries |
| DebtApi.UpdateOfNothing | backend/app.py:242-243 | "No fields to update" exactly when the checks pass, the connection exists and no updatable field is present |
| DebtApi.UpdateStatementMeaning | backend/app.py:245-248 | the statement assigns each present field in order, and its values are those fields' values followed by the debt id |

## Left out

- Dates: `datetime.now()` is a clock read. Every date is kept as its day offset 30·(m−1) from
  the start, and `strftime` formatting is not modelled.
- Decimal and float arithmetic: `Decimal` rounding, `float()` conversions and `Decimal(str(x))`
  are modelled as exact real arithmetic. JavaScript floating point is modelled the same way.
- Database and Flask I/O: the connection is a boolean parameter. The SQL `INSERT` and `UPDATE`
  are returned as statements and never run. `lastrowid`, the `rowcount == 0` 404 reply, the
  `except Exception` 500 reply to a database error (cursor, execute, commit) and the other routes
  of `app.py` are not part of this model. The same `except` answering a `TypeError` from a range
  check with status 500 is modelled (`DebtApi.TYPE_ERROR`).
- A request body that is not a JSON object is not modelled. Request values are numbers, strings
  or other values. A JSON boolean is a number in Python (`True` is 1, `False` is 0), so a
  boolean is given to the model as `Num(1.0)` or `Num(0.0)`. For example a `true` principal
  passes the range checks.
- SimulationEngine.ImpactOfRuns: with a positive additional extra, Python divides a float by a
  `Decimal` and raises `TypeError`. The model returns that failure with a fixed message instead of
  the ROI.
- SimulationEngine.LowestScoreTarget: ranks by principal·|principal|/apr instead of the irrational
  principal/√apr. `Common.HybridKeyOrdersScores` proves that the two orders agree.
- HybridStrategy: the numeric `score` fields of the recommendation and the analysis are not
  computed. Only positions, balances and APRs are kept, and the ranking carries the order.
- The text of the Python exceptions (`TypeError`, `DivisionByZero`, `InvalidOperation`,
  `UnboundLocalError`) is replaced by fixed error constants.
- Rationale f-strings and the fixed description strings of the strategies (`best_for`,
  `strategy_rationale`, `strategy_name`) are not modelled.
- `simple_simulation_engine.py:364` defines a first `compare_strategies`, which the second
  definition at line 412 replaces. Only the second one is modelled.
- The two-tower `freed_payment` (line 149) and the new engine's `available_payment` are computed
  but never used, so they are not modelled.
- The `paid_off` key of a payment result on an inactive debt is absent in the source. It is
  modelled as `None`.
- The `debts` parameter of the two-tower `calculate_extra_payment_impact` is ignored by the
  source, and the model ignores it as well.
- Frontend: `formatMonthsToYears` is modelled for integer months only; fractional or NaN months
  are not. The locale formatters (`formatZAR`, `formatDate`), the React components' rendering and
  the other API wrappers in `api.js` are not part of this model.
