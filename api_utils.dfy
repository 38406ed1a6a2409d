/** The pure helpers of the front end's API utilities: the rendering of a
    number of months as years and months, and the choice of the message an
    API error is reported with. */
module ApiUtils {
  import opened Common
  import opened Text

  // ---------------------------------------------------------------------
  // formatMonthsToYears
  // ---------------------------------------------------------------------

  /** `Math.floor(months / 12)`: Dafny's division by a positive divisor
      rounds down as `Math.floor` does. */
  function Years(months: int): (y: int)
    ensures 12 * y <= months < 12 * y + 12
  {
    months / 12
  }

  /** JavaScript's `months % 12`, which truncates: the remainder takes the
      sign of `months`. */
  function RemainingMonths(months: int): (r: int)
    ensures -12 < r < 12
    ensures months >= 0 ==> 0 <= r
    ensures months < 0 ==> r <= 0
    ensures (months - r) % 12 == 0
  {
    if months >= 0 then months % 12 else -((-months) % 12)
  }

  /** On a number of months that is not negative, the years and the
      remaining months split it exactly. */
  lemma SplitMonths(months: int)
    requires months >= 0
    ensures Years(months) >= 0 && 0 <= RemainingMonths(months) < 12
    ensures 12 * Years(months) + RemainingMonths(months) == months
  {
  }

  /** On a negative number of months that is not a whole number of years,
      the years round down while the months round toward zero, so together
      they count a year too many. */
  lemma SplitNegativeMonths(months: int)
    requires months < 0 && months % 12 != 0
    ensures 12 * Years(months) + RemainingMonths(months) == months - 12
  {
    var q := (-months) / 12;
    var r := (-months) % 12;
    assert -months == 12 * q + r && 0 < r;
    assert months == 12 * (-q - 1) + (12 - r);
    assert Years(months) == -q - 1;
  }

  /** The plural ending: "s" unless the count is exactly one. */
  function Plural(n: int): string
  {
    if n != 1 then "s" else ""
  }

  /** A count followed by its unit, in the plural unless the count is one. */
  function Counted(n: int, unit: string): string
  {
    IntToString(n) + " " + (unit + Plural(n))
  }

  /** `formatMonthsToYears`: the months alone when there is no whole year,
      the years alone when there is no month left over, and both otherwise. */
  function FormatMonthsToYears(months: int): string
  {
    var years := Years(months);
    var remainingMonths := RemainingMonths(months);
    if years == 0 then Counted(remainingMonths, "month")
    else if remainingMonths == 0 then Counted(years, "year")
    else Counted(years, "year") + " " + Counted(remainingMonths, "month")
  }

  /** Reads a count and its unit word back: the count's digits, and the
      unit in the plural exactly when the count is not one. */
  function ReadCount(number: string, word: string, unit: string): (r: Option<nat>)
    ensures r.Some? ==> word == unit + Plural(r.value)
  {
    if number != [] && AllDigits(number) && word == unit + Plural(ParseDigits(number)) then
      Some(ParseDigits(number))
    else
      None
  }

  /** Reads a duration written as "<r> month(s)" with r under 12, "<y>
      year(s)" with y positive, or "<y> year(s) <r> month(s)" with both
      positive and r under 12, and gives its number of months. */
  function ReadMonths(s: string): Option<int>
  {
    var words := Split(s);
    if |words| == 2 then
      match ReadCount(words[0], words[1], "month")
      case Some(r) => if r < 12 then Some(r) else None
      case None =>
        match ReadCount(words[0], words[1], "year")
        case Some(y) => if y > 0 then Some(12 * y) else None
        case None => None
    else if |words| == 4 then
      match (ReadCount(words[0], words[1], "year"), ReadCount(words[2], words[3], "month"))
      case (Some(y), Some(r)) => if y > 0 && 0 < r < 12 then Some(12 * y + r) else None
      case _ => None
    else
      None
  }

  lemma UnitWordHasNoSpace(n: int, unit: string)
    requires ' ' !in unit
    ensures ' ' !in unit + Plural(n)
  {
    assert Plural(n) == "s" || Plural(n) == "";
  }

  /** A count written by `Counted`, followed by more words, splits into its
      number and its unit word, then those words. */
  lemma CountedWords(n: nat, unit: string, rest: string)
    requires ' ' !in unit
    ensures Split(Counted(n, unit) + " " + rest) == [NatToString(n), unit + Plural(n)] + Split(rest)
  {
    var word := unit + Plural(n);
    UnitWordHasNoSpace(n, unit);
    assert Counted(n, unit) + " " + rest == NatToString(n) + " " + (word + " " + rest);
    SplitWord(NatToString(n), word + " " + rest);
    SplitWord(word, rest);
  }

  /** A count written by `Counted` alone splits into its number and its
      unit word. */
  lemma CountedAlone(n: nat, unit: string)
    requires ' ' !in unit
    ensures Split(Counted(n, unit)) == [NatToString(n), unit + Plural(n)]
  {
    var word := unit + Plural(n);
    UnitWordHasNoSpace(n, unit);
    SplitWord(NatToString(n), word);
    SplitLast(word);
  }

  /** The number and unit word of a count read back as the count. */
  lemma CountedRead(n: nat, unit: string)
    ensures ReadCount(NatToString(n), unit + Plural(n), unit) == Some(n)
  {
    ParseNatToString(n);
  }

  /** Under a year, the months alone are written and read back. */
  lemma RoundTripUnderAYear(months: nat)
    requires months < 12
    ensures ReadMonths(FormatMonthsToYears(months)) == Some(months)
  {
    assert Years(months) == 0 && RemainingMonths(months) == months;
    CountedAlone(months, "month");
    CountedRead(months, "month");
  }

  /** A whole number of years is written as years alone and read back. */
  lemma RoundTripWholeYears(months: nat)
    requires months >= 12 && months % 12 == 0
    ensures ReadMonths(FormatMonthsToYears(months)) == Some(months)
  {
    var y := months / 12;
    assert Years(months) == y > 0 && RemainingMonths(months) == 0;
    assert FormatMonthsToYears(months) == Counted(y, "year");
    CountedAlone(y, "year");
    CountedRead(y, "year");
    var word := "year" + Plural(y);
    assert word[0] == 'y';
    assert ReadCount(NatToString(y), word, "month") == None;
  }

  /** Years and left-over months are both written, and read back. */
  lemma RoundTripYearsAndMonths(months: nat)
    requires months >= 12 && months % 12 != 0
    ensures ReadMonths(FormatMonthsToYears(months)) == Some(months)
  {
    var y, r := months / 12, months % 12;
    assert Years(months) == y > 0 && RemainingMonths(months) == r;
    assert FormatMonthsToYears(months) == Counted(y, "year") + " " + Counted(r, "month");
    CountedWords(y, "year", Counted(r, "month"));
    CountedAlone(r, "month");
    CountedRead(y, "year");
    CountedRead(r, "month");
  }

  /** Reading back what `formatMonthsToYears` writes gives the number of
      months it was given: no two numbers of months render alike, and each
      unit is in the plural exactly when its count is not one. */
  lemma FormatRoundTrip(months: nat)
    ensures ReadMonths(FormatMonthsToYears(months)) == Some(months)
  {
    if months < 12 {
      RoundTripUnderAYear(months);
    } else if months % 12 == 0 {
      RoundTripWholeYears(months);
    } else {
      RoundTripYearsAndMonths(months);
    }
  }

  // ---------------------------------------------------------------------
  // handleApiError
  // ---------------------------------------------------------------------

  const DEFAULT_ERROR_MESSAGE: string := "An error occurred"

  /** The parts of an error from the HTTP client that are consulted: the
      `error` field of the response's data, and the error's own message. */
  datatype ResponseData = ResponseData(error: Option<string>)
  datatype Response = Response(data: Option<ResponseData>)
  datatype ApiError = ApiError(response: Option<Response>, message: Option<string>)

  /** JavaScript truthiness of a string that may be missing. */
  predicate Truthy(s: Option<string>)
  {
    s.Some? && s.value != ""
  }

  /** `error.response?.data?.error`. */
  function ServerError(e: ApiError): Option<string>
  {
    if e.response.Some? && e.response.value.data.Some? then e.response.value.data.value.error else None
  }

  /** `handleApiError`: the server's error message when there is one,
      otherwise the error's own message, otherwise the default. */
  function HandleApiError(e: ApiError, defaultMessage: string): (r: string)
    ensures r == defaultMessage || (Truthy(ServerError(e)) && r == ServerError(e).value)
            || (Truthy(e.message) && r == e.message.value)
    ensures defaultMessage != "" ==> r != ""
  {
    if Truthy(ServerError(e)) then ServerError(e).value
    else if Truthy(e.message) then e.message.value
    else defaultMessage
  }

  /** The first present, non-empty text of a list of candidates, or the
      fallback. */
  function FirstTruthy(candidates: seq<Option<string>>, fallback: string): string
  {
    if candidates == [] then fallback
    else if Truthy(candidates[0]) then candidates[0].value
    else FirstTruthy(candidates[1..], fallback)
  }

  /** The message chosen is the first of, in order of preference, the
      server's error and the error's own message that is there, and the
      default only when neither is. */
  lemma HandleApiErrorPreference(e: ApiError, defaultMessage: string)
    ensures HandleApiError(e, defaultMessage) == FirstTruthy([ServerError(e), e.message], defaultMessage)
  {
    assert [ServerError(e), e.message][1..] == [e.message];
    assert [e.message][1..] == [];
    assert FirstTruthy([], defaultMessage) == defaultMessage;
    assert FirstTruthy([e.message], defaultMessage)
        == if Truthy(e.message) then e.message.value else defaultMessage;
  }
}
