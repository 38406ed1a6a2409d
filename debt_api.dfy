/** The pure part of the HTTP API over the debts table: reading a row into
    the simulation engine's `Debt`, and the checks and statements that
    creating and updating a debt go through. The database is left out: a
    request's outcome is the rejection it gets or the statement it would run,
    given whether a connection could be opened. */
module DebtApi {
  import opened Common
  import SimulationEngine

  // ---------------------------------------------------------------------
  // debt_from_row
  // ---------------------------------------------------------------------

  /** A row of the debts table, as far as `debt_from_row` reads it: id,
      name, principal, apr, minimum payment, payment frequency, compounding
      and status. */
  datatype DebtRow = DebtRow(id: int, name: string, principal: real, apr: real, minPayment: real,
                             paymentFrequency: string, compounding: string, status: string)

  /** A stored rate above 1 is taken for a percentage and divided by 100;
      any other is taken for a fraction already. */
  function NormalizeApr(apr: real): (r: real)
    ensures apr > 1.0 ==> r * 100.0 == apr
    ensures apr <= 1.0 ==> r == apr
  {
    if apr > 1.0 then apr / 100.0 else apr
  }

  /** Normalising twice is normalising once exactly for rates up to 100;
      a percentage in (1, 100] becomes a fraction in (0.01, 1], and every
      rate in [0, 100] becomes one in [0, 1]. A percentage just above 1
      therefore reads as a lower rate than a stored 1, which stays 1. */
  lemma NormalizeAprMeaning(apr: real)
    ensures NormalizeApr(NormalizeApr(apr)) == NormalizeApr(apr) <==> apr <= 100.0
    ensures 1.0 < apr <= 100.0 ==> 0.01 < NormalizeApr(apr) <= 1.0
    ensures 0.0 <= apr <= 100.0 ==> 0.0 <= NormalizeApr(apr) <= 1.0
    ensures 1.0 < apr < 100.0 ==> NormalizeApr(apr) < NormalizeApr(1.0)
  {
    if apr > 100.0 {
      assert NormalizeApr(apr) > 1.0;
      assert NormalizeApr(NormalizeApr(apr)) < NormalizeApr(apr);
    }
  }

  /** `debt_from_row`: a fresh engine `Debt` with the row's fields and its
      rate normalised. */
  method DebtFromRow(row: DebtRow) returns (d: SimulationEngine.Debt)
    ensures fresh(d)
    ensures d.Snap() == SimulationEngine.NewDebt(row.id, row.name, row.principal, NormalizeApr(row.apr),
                                                 row.minPayment, row.paymentFrequency, row.compounding,
                                                 row.status)
  {
    var aprValue := row.apr;
    if aprValue > 1.0 {
      aprValue := aprValue / 100.0;
    }
    d := new SimulationEngine.Debt(row.id, row.name, row.principal, aprValue, row.minPayment,
                                   row.paymentFrequency, row.compounding, row.status);
  }

  // ---------------------------------------------------------------------
  // Requests
  // ---------------------------------------------------------------------

  /** A value of the request's JSON object: a number (booleans count as
      numbers in Python), a string, or anything else (null, a list, an
      object). */
  datatype Value = Num(x: real) | Text(s: string) | OtherValue

  /** The request's JSON object. */
  type Request = map<string, Value>

  /** An error answer: its HTTP status and its `error` message. */
  datatype Rejection = Rejection(status: int, error: string)

  /** The statement a request would run: its SQL text and its parameters. */
  datatype Statement = Statement(query: string, values: seq<Value>)

  /** What a request comes to: an error answer, or the statement it runs. */
  datatype Outcome = Rejected(rejection: Rejection) | Execute(statement: Statement)

  const PRINCIPAL_NOT_POSITIVE: string := "Principal must be positive"
  const APR_OUT_OF_RANGE: string := "APR must be between 0 and 100"
  const MIN_PAYMENT_NOT_POSITIVE: string := "Minimum payment must be positive"
  const CONNECTION_FAILED: string := "Database connection failed"
  const NO_FIELDS_TO_UPDATE: string := "No fields to update"

  /** The message of the `TypeError` a comparison of a value that is not a
      number with a number raises, which the handler answers with status
      500. */
  const TYPE_ERROR: string := "TypeError"

  /** The answers the range checks can give. */
  const CHECK_REJECTIONS: set<Rejection> := {
    Rejection(400, PRINCIPAL_NOT_POSITIVE), Rejection(400, APR_OUT_OF_RANGE),
    Rejection(400, MIN_PAYMENT_NOT_POSITIVE), Rejection(500, TYPE_ERROR)
  }

  /** The fields whose values are range-checked, in the order they are
      checked. */
  const CHECKED_FIELDS: seq<string> := ["principal", "apr", "min_payment"]

  /** The range a checked field's value must lie in. */
  predicate Acceptable(field: string, x: real)
  {
    if field == "apr" then 0.0 <= x <= 100.0 else x > 0.0
  }

  function RangeError(field: string): string
  {
    if field == "principal" then PRINCIPAL_NOT_POSITIVE
    else if field == "apr" then APR_OUT_OF_RANGE
    else MIN_PAYMENT_NOT_POSITIVE
  }

  /** A field that is there holds a number in its range. */
  predicate Valid(data: Request, field: string)
    requires field in data
  {
    data[field].Num? && Acceptable(field, data[field].x)
  }

  /** The check of one field when it is there: a value that is not a number
      raises in the comparison, one out of range is refused. */
  function FieldCheck(data: Request, field: string): (r: Option<Rejection>)
    ensures r.None? <==> field !in data || Valid(data, field)
    ensures r.Some? ==> r.value in CHECK_REJECTIONS
    ensures field in data && !data[field].Num? ==> r == Some(Rejection(500, TYPE_ERROR))
    ensures field == "principal" && field in data && data[field].Num? && data[field].x <= 0.0 ==>
      r == Some(Rejection(400, PRINCIPAL_NOT_POSITIVE))
    ensures field == "apr" && field in data && data[field].Num? && !(0.0 <= data[field].x <= 100.0) ==>
      r == Some(Rejection(400, APR_OUT_OF_RANGE))
    ensures field == "min_payment" && field in data && data[field].Num? && data[field].x <= 0.0 ==>
      r == Some(Rejection(400, MIN_PAYMENT_NOT_POSITIVE))
  {
    if field !in data then None
    else match data[field]
      case Num(x) => if Acceptable(field, x) then None else Some(Rejection(400, RangeError(field)))
      case _ => Some(Rejection(500, TYPE_ERROR))
  }

  /** The first rejection the listed checks give, in order. */
  function FirstRejection(data: Request, fields: seq<string>): (r: Option<Rejection>)
    ensures r.Some? ==> r.value in CHECK_REJECTIONS
  {
    if fields == [] then None
    else if FieldCheck(data, fields[0]).Some? then FieldCheck(data, fields[0])
    else FirstRejection(data, fields[1..])
  }

  /** The checks pass exactly when every listed field that is there is
      valid; a rejection is that of the first field, in the listed order,
      that is there and not valid. */
  lemma {:induction false} FirstRejectionMeaning(data: Request, fields: seq<string>)
    ensures FirstRejection(data, fields).None? <==>
      forall k :: 0 <= k < |fields| && fields[k] in data ==> Valid(data, fields[k])
    ensures FirstRejection(data, fields).Some? ==>
      exists k :: 0 <= k < |fields| && fields[k] in data && !Valid(data, fields[k])
        && FirstRejection(data, fields) == FieldCheck(data, fields[k])
        && forall i :: 0 <= i < k && fields[i] in data ==> Valid(data, fields[i])
  {
    if fields != [] {
      FirstRejectionMeaning(data, fields[1..]);
      if FieldCheck(data, fields[0]).None? && FirstRejection(data, fields).Some? {
        var k :| 0 <= k < |fields[1..]| && fields[1..][k] in data && !Valid(data, fields[1..][k])
          && FirstRejection(data, fields[1..]) == FieldCheck(data, fields[1..][k])
          && forall i :: 0 <= i < k && fields[1..][i] in data ==> Valid(data, fields[1..][i]);
        assert fields[k + 1] == fields[1..][k];
        forall i | 0 <= i < k + 1 && fields[i] in data ensures Valid(data, fields[i]) {
          if i > 0 {
            assert fields[i] == fields[1..][i - 1];
          }
        }
      }
    }
  }

  // ---------------------------------------------------------------------
  // create_debt
  // ---------------------------------------------------------------------

  /** The fields a new debt must be given, in the order they are looked for. */
  const REQUIRED_FIELDS: seq<string> := ["name", "principal", "apr", "min_payment"]

  /** The first listed field the request lacks. */
  function FirstMissing(data: Request, fields: seq<string>): (r: Option<string>)
    ensures r.None? <==> forall f :: f in fields ==> f in data
  {
    if fields == [] then None
    else if fields[0] !in data then Some(fields[0])
    else FirstMissing(data, fields[1..])
  }

  /** There is no missing field exactly when every listed field is there;
      a missing field is the first listed one the request lacks. */
  lemma {:induction false} FirstMissingMeaning(data: Request, fields: seq<string>)
    ensures FirstMissing(data, fields).Some? ==>
      exists k :: 0 <= k < |fields| && fields[k] == FirstMissing(data, fields).value && fields[k] !in data
        && forall i :: 0 <= i < k ==> fields[i] in data
  {
    if fields != [] {
      FirstMissingMeaning(data, fields[1..]);
      if fields[0] in data && FirstMissing(data, fields).Some? {
        var k :| 0 <= k < |fields[1..]| && fields[1..][k] == FirstMissing(data, fields[1..]).value
          && fields[1..][k] !in data && forall i :: 0 <= i < k ==> fields[1..][i] in data;
        assert fields[k + 1] == fields[1..][k];
        forall i | 0 <= i < k + 1 ensures fields[i] in data {
          if i > 0 {
            assert fields[i] == fields[1..][i - 1];
          }
        }
      }
    }
  }

  /** `for field in required_fields: if field not in data: return ...`. */
  method FindMissingField(data: Request) returns (r: Option<string>)
    ensures r == FirstMissing(data, REQUIRED_FIELDS)
  {
    for i := 0 to |REQUIRED_FIELDS|
      invariant FirstMissing(data, REQUIRED_FIELDS) == FirstMissing(data, REQUIRED_FIELDS[i..])
    {
      assert REQUIRED_FIELDS[i..][1..] == REQUIRED_FIELDS[i + 1..];
      if REQUIRED_FIELDS[i] !in data {
        return Some(REQUIRED_FIELDS[i]);
      }
    }
    r := None;
  }

  /** `data.get(field, default)`. */
  function GetOr(data: Request, field: string, default: Value): Value
  {
    if field in data then data[field] else default
  }

  const INSERT_DEBT: string :=
    "INSERT INTO debts (name, principal, apr, min_payment, payment_frequency, compounding, notes) "
    + "VALUES (%s, %s, %s, %s, %s, %s, %s)"

  /** `create_debt` up to the database: the first missing field, then the
      range checks in order, then the connection; otherwise the insert with
      the request's values, monthly payments and compounding and empty notes
      standing in for those not given. */
  function CreateOutcome(data: Request, connected: bool): Outcome
  {
    match FirstMissing(data, REQUIRED_FIELDS)
    case Some(field) => Rejected(Rejection(400, "Missing required field: " + field))
    case None =>
      match FirstRejection(data, CHECKED_FIELDS)
      case Some(rejection) => Rejected(rejection)
      case None =>
        if !connected then Rejected(Rejection(500, CONNECTION_FAILED))
        else
          Execute(Statement(INSERT_DEBT,
            [data["name"], data["principal"], data["apr"], data["min_payment"],
             GetOr(data, "payment_frequency", Text("monthly")),
             GetOr(data, "compounding", Text("monthly")),
             GetOr(data, "notes", Text(""))]))
  }

  /** `create_debt`: the required fields are looked for one by one before
      the values are checked. */
  method CreateDebt(data: Request, connected: bool) returns (r: Outcome)
    ensures r == CreateOutcome(data, connected)
  {
    var missing := FindMissingField(data);
    if missing.Some? {
      return Rejected(Rejection(400, "Missing required field: " + missing.value));
    }
    var rejection := FirstRejection(data, CHECKED_FIELDS);
    if rejection.Some? {
      return Rejected(rejection.value);
    }
    if !connected {
      return Rejected(Rejection(500, CONNECTION_FAILED));
    }
    r := Execute(Statement(INSERT_DEBT,
      [data["name"], data["principal"], data["apr"], data["min_payment"],
       GetOr(data, "payment_frequency", Text("monthly")),
       GetOr(data, "compounding", Text("monthly")),
       GetOr(data, "notes", Text(""))]));
  }

  /** A new debt gets to the database exactly when all four required fields
      are there, the principal and the minimum payment are positive numbers
      and the rate is a number in [0, 100]; a rejection for a missing field
      names the first of name, principal, apr and min_payment that is
      missing, and no range is checked before every field is there. */
  lemma CreateOutcomeMeaning(data: Request, connected: bool)
    ensures CreateOutcome(data, connected).Execute? <==>
      && connected
      && (forall f :: f in REQUIRED_FIELDS ==> f in data)
      && data["principal"].Num? && data["principal"].x > 0.0
      && data["apr"].Num? && 0.0 <= data["apr"].x <= 100.0
      && data["min_payment"].Num? && data["min_payment"].x > 0.0
    ensures FirstMissing(data, REQUIRED_FIELDS).Some? ==>
      CreateOutcome(data, connected)
        == Rejected(Rejection(400, "Missing required field: " + FirstMissing(data, REQUIRED_FIELDS).value))
    ensures FirstMissing(data, REQUIRED_FIELDS).None? && !data["principal"].Num? ==>
      CreateOutcome(data, connected) == Rejected(Rejection(500, TYPE_ERROR))
    ensures FirstMissing(data, REQUIRED_FIELDS).None? && data["principal"].Num? && data["principal"].x <= 0.0 ==>
      CreateOutcome(data, connected) == Rejected(Rejection(400, PRINCIPAL_NOT_POSITIVE))
    ensures FirstMissing(data, REQUIRED_FIELDS).None? && Valid(data, "principal") ==>
      && (!data["apr"].Num? ==> CreateOutcome(data, connected) == Rejected(Rejection(500, TYPE_ERROR)))
      && (data["apr"].Num? && !(0.0 <= data["apr"].x <= 100.0) ==>
            CreateOutcome(data, connected) == Rejected(Rejection(400, APR_OUT_OF_RANGE)))
    ensures FirstMissing(data, REQUIRED_FIELDS).None? && Valid(data, "principal") && Valid(data, "apr") ==>
      && (!data["min_payment"].Num? ==> CreateOutcome(data, connected) == Rejected(Rejection(500, TYPE_ERROR)))
      && (data["min_payment"].Num? && data["min_payment"].x <= 0.0 ==>
            CreateOutcome(data, connected) == Rejected(Rejection(400, MIN_PAYMENT_NOT_POSITIVE)))
    ensures FirstMissing(data, REQUIRED_FIELDS).None? && FirstRejection(data, CHECKED_FIELDS).None? && !connected ==>
      CreateOutcome(data, connected) == Rejected(Rejection(500, CONNECTION_FAILED))
  {
    FirstMissingMeaning(data, REQUIRED_FIELDS);
    FirstRejectionMeaning(data, CHECKED_FIELDS);
    if FirstMissing(data, REQUIRED_FIELDS).None? {
      assert REQUIRED_FIELDS[1] == CHECKED_FIELDS[0] && REQUIRED_FIELDS[2] == CHECKED_FIELDS[1];
      assert REQUIRED_FIELDS[3] == CHECKED_FIELDS[2];
    }
  }

  // ---------------------------------------------------------------------
  // update_debt
  // ---------------------------------------------------------------------

  /** The fields an update may set, in the order they are assigned. */
  const UPDATABLE_FIELDS: seq<string> :=
    ["name", "principal", "apr", "min_payment", "payment_frequency", "compounding", "notes"]

  /** The listed fields the request gives, in the listed order. */
  function PresentFields(data: Request, fields: seq<string>): (r: seq<string>)
    ensures |r| <= |fields|
  {
    if fields == [] then []
    else
      var last := fields[|fields| - 1];
      PresentFields(data, fields[..|fields| - 1]) + (if last in data then [last] else [])
  }

  /** `a` is `b` with some elements left out. */
  predicate IsSubsequence(a: seq<string>, b: seq<string>)
  {
    if a == [] then true
    else if b == [] then false
    else (a[|a| - 1] == b[|b| - 1] && IsSubsequence(a[..|a| - 1], b[..|b| - 1])) || IsSubsequence(a, b[..|b| - 1])
  }

  /** The fields given are the listed fields the request has, each in its
      listed place. */
  lemma {:induction false} PresentFieldsMeaning(data: Request, fields: seq<string>)
    ensures forall f :: f in PresentFields(data, fields) <==> f in fields && f in data
    ensures IsSubsequence(PresentFields(data, fields), fields)
  {
    if fields != [] {
      var front := fields[..|fields| - 1];
      var last := fields[|fields| - 1];
      PresentFieldsMeaning(data, front);
      assert fields == front + [last];
      var r := PresentFields(data, fields);
      if last in data {
        assert r[..|r| - 1] == PresentFields(data, front);
      } else {
        assert r == PresentFields(data, front);
        SubsequenceOfLonger(r, front, last);
      }
    }
  }

  lemma {:induction false} SubsequenceOfLonger(a: seq<string>, b: seq<string>, x: string)
    requires IsSubsequence(a, b)
    ensures IsSubsequence(a, b + [x])
  {
    assert (b + [x])[..|b|] == b;
  }

  function Assignment(field: string): string
  {
    field + " = %s"
  }

  /** One `<field> = %s` per field, in order. */
  function AssignmentsOf(fields: seq<string>): (r: seq<string>)
    ensures |r| == |fields| && forall k :: 0 <= k < |r| ==> r[k] == Assignment(fields[k])
  {
    if fields == [] then [] else AssignmentsOf(fields[..|fields| - 1]) + [Assignment(fields[|fields| - 1])]
  }

  /** The request's value of each field, in order. */
  function ValuesOf(data: Request, fields: seq<string>): (r: seq<Value>)
    requires forall f :: f in fields ==> f in data
    ensures |r| == |fields| && forall k :: 0 <= k < |r| ==> r[k] == data[fields[k]]
  {
    if fields == [] then [] else ValuesOf(data, fields[..|fields| - 1]) + [data[fields[|fields| - 1]]]
  }

  /** The texts joined with the separator between each two. */
  function Join(separator: string, texts: seq<string>): string
  {
    if texts == [] then ""
    else if |texts| == 1 then texts[0]
    else Join(separator, texts[..|texts| - 1]) + separator + texts[|texts| - 1]
  }

  function UpdateQuery(assignments: seq<string>): string
  {
    "UPDATE debts SET " + Join(", ", assignments) + " WHERE id = %s"
  }

  /** The assignment loop: one `<field> = %s` and one parameter per field
      given, in the order of `UPDATABLE_FIELDS`. */
  method BuildUpdate(data: Request) returns (updateFields: seq<string>, values: seq<Value>)
    ensures PresentFieldsInData(data, UPDATABLE_FIELDS)
    ensures updateFields == AssignmentsOf(PresentFields(data, UPDATABLE_FIELDS))
    ensures values == ValuesOf(data, PresentFields(data, UPDATABLE_FIELDS))
  {
    updateFields, values := [], [];
    for i := 0 to |UPDATABLE_FIELDS|
      invariant PresentFieldsInData(data, UPDATABLE_FIELDS[..i])
      invariant updateFields == AssignmentsOf(PresentFields(data, UPDATABLE_FIELDS[..i]))
      invariant values == ValuesOf(data, PresentFields(data, UPDATABLE_FIELDS[..i]))
    {
      var field := UPDATABLE_FIELDS[i];
      PresentFieldsStep(data, UPDATABLE_FIELDS, i);
      if field in data {
        updateFields := updateFields + [Assignment(field)];
        values := values + [data[field]];
      }
    }
    assert UPDATABLE_FIELDS[..|UPDATABLE_FIELDS|] == UPDATABLE_FIELDS;
  }

  /** One more listed field adds itself to the fields given when the
      request has it, and the assignments and parameters grow with it. */
  lemma PresentFieldsStep(data: Request, fields: seq<string>, i: nat)
    requires i < |fields| && PresentFieldsInData(data, fields[..i])
    ensures var before, after := PresentFields(data, fields[..i]), PresentFields(data, fields[..i + 1]);
      && PresentFieldsInData(data, fields[..i + 1])
      && after == before + (if fields[i] in data then [fields[i]] else [])
      && AssignmentsOf(after) == AssignmentsOf(before) + (if fields[i] in data then [Assignment(fields[i])] else [])
      && ValuesOf(data, after) == ValuesOf(data, before) + (if fields[i] in data then [data[fields[i]]] else [])
  {
    assert fields[..i + 1][..i] == fields[..i];
    var before := PresentFields(data, fields[..i]);
    if fields[i] in data {
      assert (before + [fields[i]])[..|before|] == before;
    }
  }

  /** Every field `PresentFields` keeps is in the request. */
  predicate PresentFieldsInData(data: Request, fields: seq<string>)
  {
    forall f :: f in PresentFields(data, fields) ==> f in data
  }

  /** The assignments and parameters for the fields given. */
  function Assignments(data: Request): seq<string>
  {
    AssignmentsOf(PresentFields(data, UPDATABLE_FIELDS))
  }

  function AssignedValues(data: Request): seq<Value>
  {
    PresentFieldsMeaning(data, UPDATABLE_FIELDS);
    ValuesOf(data, PresentFields(data, UPDATABLE_FIELDS))
  }

  /** `update_debt` up to the database: the range checks of the fields
      given, in order; then the connection; then an update that sets
      nothing is refused; otherwise the update of the fields given, its
      parameters followed by the debt's id. */
  function UpdateOutcome(data: Request, debtId: int, connected: bool): Outcome
  {
    match FirstRejection(data, CHECKED_FIELDS)
    case Some(rejection) => Rejected(rejection)
    case None =>
      if !connected then Rejected(Rejection(500, CONNECTION_FAILED))
      else if Assignments(data) == [] then Rejected(Rejection(400, NO_FIELDS_TO_UPDATE))
      else Execute(Statement(UpdateQuery(Assignments(data)), AssignedValues(data) + [Num(debtId as real)]))
  }

  /** `update_debt`: the checks, then the assignment loop. */
  method UpdateDebt(data: Request, debtId: int, connected: bool) returns (r: Outcome)
    ensures r == UpdateOutcome(data, debtId, connected)
  {
    var rejection := FirstRejection(data, CHECKED_FIELDS);
    if rejection.Some? {
      return Rejected(rejection.value);
    }
    if !connected {
      return Rejected(Rejection(500, CONNECTION_FAILED));
    }
    var updateFields, values := BuildUpdate(data);
    if updateFields == [] {
      return Rejected(Rejection(400, NO_FIELDS_TO_UPDATE));
    }
    values := values + [Num(debtId as real)];
    assert updateFields == Assignments(data);
    assert values[..|values| - 1] == AssignedValues(data);
    r := Execute(Statement(UpdateQuery(updateFields), values));
  }

  /** An update is checked only on the fields it gives: it passes the checks
      exactly when each of principal, apr and min_payment that it gives is a
      number in range. */
  lemma UpdateChecksOnlyPresent(data: Request)
    ensures FirstRejection(data, CHECKED_FIELDS).None? <==>
      forall f :: f in CHECKED_FIELDS && f in data ==> Valid(data, f)
  {
    FirstRejectionMeaning(data, CHECKED_FIELDS);
  }

  /** An update is refused for setting nothing exactly when it passes the
      checks, the connection opens and it gives none of the updatable
      fields. */
  lemma UpdateOfNothing(data: Request, debtId: int, connected: bool)
    ensures UpdateOutcome(data, debtId, connected) == Rejected(Rejection(400, NO_FIELDS_TO_UPDATE)) <==>
      && FirstRejection(data, CHECKED_FIELDS).None? && connected
      && forall f :: f in UPDATABLE_FIELDS ==> f !in data
  {
    PresentFieldsMeaning(data, UPDATABLE_FIELDS);
    var present := PresentFields(data, UPDATABLE_FIELDS);
    assert |Assignments(data)| == |present|;
    if present != [] {
      assert present[0] in UPDATABLE_FIELDS && present[0] in data;
    }
    assert NO_FIELDS_TO_UPDATE != PRINCIPAL_NOT_POSITIVE && NO_FIELDS_TO_UPDATE != APR_OUT_OF_RANGE;
    assert NO_FIELDS_TO_UPDATE != MIN_PAYMENT_NOT_POSITIVE && NO_FIELDS_TO_UPDATE != TYPE_ERROR;
  }

  /** An update that runs sets each field it gives, and only those, in the
      order of `UPDATABLE_FIELDS`, each to the request's value, with the
      debt's id as the last parameter. */
  lemma UpdateStatementMeaning(data: Request, debtId: int, connected: bool)
    requires UpdateOutcome(data, debtId, connected).Execute?
    ensures var st := UpdateOutcome(data, debtId, connected).statement;
      var present := PresentFields(data, UPDATABLE_FIELDS);
      && IsSubsequence(present, UPDATABLE_FIELDS)
      && (forall f :: f in present <==> f in UPDATABLE_FIELDS && f in data)
      && |st.values| == |present| + 1
      && st.values[|present|] == Num(debtId as real)
      && (forall k :: 0 <= k < |present| ==> st.values[k] == data[present[k]])
      && st.query == UpdateQuery(AssignmentsOf(present))
  {
    PresentFieldsMeaning(data, UPDATABLE_FIELDS);
  }
}
