/** The pure helpers of the card that shows the months left to being debt
    free: its own rendering of months as years and months, the strategy's
    icon and name, the encouragement for the months left, and the progress
    bar's width and label. */
module MonthsToZeroCard {
  import opened Text
  import ApiUtils

  /** The card's `formatMonthsToYears`: as the API utilities' rendering for
      the months alone and for whole years, but the compact "<y>y <r>m"
      when there are both. */
  function FormatMonthsToYears(months: int): string
  {
    var years := ApiUtils.Years(months);
    var remainingMonths := ApiUtils.RemainingMonths(months);
    if years == 0 then ApiUtils.Counted(remainingMonths, "month")
    else if remainingMonths == 0 then ApiUtils.Counted(years, "year")
    else IntToString(years) + "y " + IntToString(remainingMonths) + "m"
  }

  /** The card and the API utilities render a number of months alike exactly
      when it has no whole year or no left-over month; with both, the card's
      compact form is the shorter. */
  lemma CardFormatAgreesWithApi(months: int)
    ensures var y, r := ApiUtils.Years(months), ApiUtils.RemainingMonths(months);
      && (FormatMonthsToYears(months) == ApiUtils.FormatMonthsToYears(months) <==> y == 0 || r == 0)
      && (y != 0 && r != 0 ==> |FormatMonthsToYears(months)| < |ApiUtils.FormatMonthsToYears(months)|)
  {
    var y, r := ApiUtils.Years(months), ApiUtils.RemainingMonths(months);
    if y != 0 && r != 0 {
      var card := FormatMonthsToYears(months);
      var api := ApiUtils.FormatMonthsToYears(months);
      assert |card| == |IntToString(y)| + |IntToString(r)| + 3;
      assert |api| >= |IntToString(y)| + |IntToString(r)| + 12;
    }
  }

  // ---------------------------------------------------------------------
  // getStrategyIcon, getStrategyName
  // ---------------------------------------------------------------------

  /** The strategies the card knows by name. */
  predicate IsKnownStrategy(strategy: string)
  {
    strategy == "avalanche" || strategy == "snowball" || strategy == "hybrid"
  }

  const DEFAULT_ICON: string := "fas fa-chart-line"

  const DEFAULT_NAME: string := "Strategy"

  /** `getStrategyIcon`: the icon of a known strategy, otherwise the chart
      icon. */
  function StrategyIcon(strategy: string): (r: string)
    ensures r == DEFAULT_ICON <==> !IsKnownStrategy(strategy)
  {
    match strategy
    case "avalanche" => assert |"fas fa-fire"| != |DEFAULT_ICON|; "fas fa-fire"
    case "snowball" => assert |"fas fa-snowflake"| != |DEFAULT_ICON|; "fas fa-snowflake"
    case "hybrid" => assert "fas fa-balance-scale"[7] != DEFAULT_ICON[7]; "fas fa-balance-scale"
    case _ => DEFAULT_ICON
  }

  /** `getStrategyName`: the name of a known strategy, otherwise "Strategy". */
  function StrategyName(strategy: string): (r: string)
    ensures r == DEFAULT_NAME <==> !IsKnownStrategy(strategy)
  {
    match strategy
    case "avalanche" => assert |"Avalanche"| != |DEFAULT_NAME|; "Avalanche"
    case "snowball" => assert "Snowball"[0] != DEFAULT_NAME[1]; "Snowball"
    case "hybrid" => assert |"Hybrid"| != |DEFAULT_NAME|; "Hybrid"
    case _ => DEFAULT_NAME
  }

  /** A lower-case ASCII word with its first letter in upper case. */
  function Capitalized(word: string): string
  {
    if word != [] && 'a' <= word[0] <= 'z' then [(word[0] as int - 32) as char] + word[1..] else word
  }

  /** The name of a known strategy is the strategy capitalised, and no two
      known strategies share an icon or a name. */
  lemma StrategyLabels(s1: string, s2: string)
    requires IsKnownStrategy(s1) && IsKnownStrategy(s2)
    ensures StrategyName(s1) == Capitalized(s1)
    ensures s1 != s2 ==> StrategyIcon(s1) != StrategyIcon(s2) && StrategyName(s1) != StrategyName(s2)
  {
    assert "fas fa-fire"[7] != "fas fa-balance-scale"[7];
    assert "Avalanche"[0] != "Snowball"[0] && "Avalanche"[0] != "Hybrid"[0] && "Snowball"[0] != "Hybrid"[0];
  }

  // ---------------------------------------------------------------------
  // getMotivationalMessage
  // ---------------------------------------------------------------------

  /** The encouragements, from the nearest goal to the farthest. */
  const MESSAGES: seq<string> := [
    "You're almost there! \U{1F389}",
    "Great progress! Keep it up! \U{1F4AA}",
    "You're on the right track! \U{1F4C8}",
    "Every payment counts! \U{1F4B0}"
  ]

  /** The month counts at which the encouragement changes. */
  const THRESHOLDS: seq<int> := [12, 24, 60]

  /** `getMotivationalMessage`: a year or less, two years or less, five
      years or less, and longer each have their message. */
  function MotivationalMessage(months: int): string
  {
    if months <= 12 then MESSAGES[0]
    else if months <= 24 then MESSAGES[1]
    else if months <= 60 then MESSAGES[2]
    else MESSAGES[3]
  }

  /** How many of the thresholds the months are past. */
  function Passed(months: int, thresholds: seq<int>): (t: nat)
    ensures t <= |thresholds|
  {
    if thresholds == [] then 0
    else (if months > thresholds[0] then 1 else 0) + Passed(months, thresholds[1..])
  }

  /** More months are past at least as many thresholds. */
  lemma {:induction false} PassedMonotone(months: int, later: int, thresholds: seq<int>)
    requires months <= later
    ensures Passed(months, thresholds) <= Passed(later, thresholds)
  {
    if thresholds != [] {
      PassedMonotone(months, later, thresholds[1..]);
    }
  }

  /** The message shown is the one for the number of thresholds the months
      are past, so more months never bring a nearer-goal message, and the
      four messages are distinct. */
  lemma MotivationalMessageByTier(months: int, later: int)
    requires months <= later
    ensures MotivationalMessage(months) == MESSAGES[Passed(months, THRESHOLDS)]
    ensures Passed(months, THRESHOLDS) <= Passed(later, THRESHOLDS)
    ensures forall i, j :: 0 <= i < j < |MESSAGES| ==> MESSAGES[i] != MESSAGES[j]
  {
    PassedMonotone(months, later, THRESHOLDS);
    assert THRESHOLDS[1..] == [24, 60] && [24, 60][1..] == [60] && [60][1..] == [];
    assert Passed(months, [60]) == (if months > 60 then 1 else 0) + Passed(months, []);
    assert Passed(months, [24, 60]) == (if months > 24 then 1 else 0) + Passed(months, [60]);
    assert Passed(months, THRESHOLDS) == (if months > 12 then 1 else 0) + Passed(months, [24, 60]);
    assert MESSAGES[0][1] != MESSAGES[1][1] && MESSAGES[0][1] != MESSAGES[3][1];
    assert MESSAGES[1][1] != MESSAGES[2][1] && MESSAGES[2][1] != MESSAGES[3][1];
    assert MESSAGES[0][9] != MESSAGES[2][9];
    assert MESSAGES[1][0] != MESSAGES[3][0];
  }

  // ---------------------------------------------------------------------
  // The progress bar
  // ---------------------------------------------------------------------

  /** The span the progress bar measures: ten years. */
  const PROGRESS_SPAN: int := 120

  function Min(a: real, b: real): real
  {
    if a <= b then a else b
  }

  function Max(a: real, b: real): real
  {
    if a >= b then a else b
  }

  /** The progress bar's width in percent:
      `Math.min(100, Math.max(0, (120 - monthsToZero) / 120 * 100))`. */
  function ProgressWidth(monthsToZero: int): (w: real)
    ensures 0.0 <= w <= 100.0
  {
    Min(100.0, Max(0.0, (PROGRESS_SPAN - monthsToZero) as real / PROGRESS_SPAN as real * 100.0))
  }

  /** The label under the bar. */
  function ProgressLabel(monthsToZero: int): string
  {
    if monthsToZero <= PROGRESS_SPAN then "On track!" else "Keep pushing!"
  }

  /** The bar is full with nothing left to pay, empty from ten years on,
      and in between shrinks by the same step for every month more; the
      label reads "On track!" exactly up to ten years, so at exactly ten
      years it does so under an empty bar. */
  lemma ProgressMeaning(monthsToZero: int, later: int)
    requires monthsToZero < later
    ensures monthsToZero <= 0 ==> ProgressWidth(monthsToZero) == 100.0
    ensures ProgressWidth(monthsToZero) == 0.0 <==> monthsToZero >= PROGRESS_SPAN
    ensures 0 <= monthsToZero && later <= PROGRESS_SPAN ==>
      ProgressWidth(monthsToZero) - ProgressWidth(later) == (later - monthsToZero) as real * 100.0 / 120.0
    ensures ProgressWidth(later) <= ProgressWidth(monthsToZero)
    ensures ProgressLabel(monthsToZero) == "On track!" <==>
      ProgressWidth(monthsToZero) > 0.0 || monthsToZero == PROGRESS_SPAN
  {
    assert "On track!"[0] != "Keep pushing!"[0];
  }
}
