/**
 * The hose-coupling API route (app/api/slang-koppelingen/route.ts): the
 * validation that GET, POST, PATCH and DELETE do before touching the
 * database. Database and environment results are parameters.
 */
module SlangKoppelingen {
  import opened Wrappers
  import opened Js
  import opened Text
  import opened Http
  import opened Seqs

  const RequiredFields: seq<string> := [
    "machine_id", "slang_nummer", "slang_kleur", "slang_label", "ventiel_id", "poort",
    "functie_beschrijving", "instructie_tekst", "connection_type", "pressure_rating", "flow_rating"
  ]

  const ValidConnectionTypes: seq<string> := ["single_acting", "double_acting", "high_flow", "low_flow"]

  const MissingPrefix := "Missing required fields: "
  const InvalidTypeMessage := "Invalid connection type"
  const PressureMessage := "Pressure rating must be between 0 and 350 bar"
  const FlowMessage := "Flow rating must be between 0 and 200 l/min"
  const MaxPressureRating := 350
  const MaxFlowRating := 200

  /** `fields.filter(field => !body[field])` */
  function MissingFields(body: Body, fields: seq<string>): (r: seq<string>)
    ensures forall f :: f in r <==> f in fields && !Truthy(Field(body, f))
    ensures SubsequenceOf(r, fields)
  {
    if fields == [] then []
    else if Truthy(Field(body, fields[0])) then MissingFields(body, fields[1..])
    else [fields[0]] + MissingFields(body, fields[1..])
  }

  /** `validConnectionTypes.includes(v)`: only one of the four strings matches. */
  predicate ValidConnectionType(v: JsVal) {
    v.Str? && v.s in ValidConnectionTypes
  }

  /** The four checks of POST, in order; the first one that fails decides. */
  function ValidatePost(body: Body): (r: Reply<Body>)
    ensures r.Reject? ==> r.status == 400
    ensures r.Accept? ==> r.value == body
    ensures r.Accept? <==>
              (forall f :: f in RequiredFields ==> Truthy(Field(body, f)))
              && ValidConnectionType(Field(body, "connection_type"))
              && !OutsideRange(Field(body, "pressure_rating"), 0, MaxPressureRating)
              && !OutsideRange(Field(body, "flow_rating"), 0, MaxFlowRating)
    ensures MissingFields(body, RequiredFields) != [] ==>
              r == Reject(400, MissingPrefix + Join(MissingFields(body, RequiredFields), ", "))
    ensures MissingFields(body, RequiredFields) == [] && !ValidConnectionType(Field(body, "connection_type")) ==>
              r == Reject(400, InvalidTypeMessage)
    ensures MissingFields(body, RequiredFields) == [] && ValidConnectionType(Field(body, "connection_type"))
              && OutsideRange(Field(body, "pressure_rating"), 0, MaxPressureRating) ==>
              r == Reject(400, PressureMessage)
    ensures MissingFields(body, RequiredFields) == [] && ValidConnectionType(Field(body, "connection_type"))
              && !OutsideRange(Field(body, "pressure_rating"), 0, MaxPressureRating)
              && OutsideRange(Field(body, "flow_rating"), 0, MaxFlowRating) ==>
              r == Reject(400, FlowMessage)
  {
    var missing := MissingFields(body, RequiredFields);
    if missing != [] then
      assert missing[0] in missing;
      Reject(400, MissingPrefix + Join(missing, ", "))
    else if !ValidConnectionType(Field(body, "connection_type")) then Reject(400, InvalidTypeMessage)
    else if OutsideRange(Field(body, "pressure_rating"), 0, MaxPressureRating) then Reject(400, PressureMessage)
    else if OutsideRange(Field(body, "flow_rating"), 0, MaxFlowRating) then Reject(400, FlowMessage)
    else Accept(body)
  }

  /** A rating of 0 is inside the stated range, but the required-field check
      already rejects it as missing: no accepted POST carries a zero rating. */
  lemma PostNeverAcceptsZeroRating(body: Body)
    requires Field(body, "pressure_rating") == Num(0) || Field(body, "flow_rating") == Num(0)
    ensures ValidatePost(body).Reject?
    ensures ValidatePost(body) == Reject(400, MissingPrefix + Join(MissingFields(body, RequiredFields), ", "))
  {
    var k := if Field(body, "pressure_rating") == Num(0) then 9 else 10;
    assert !Truthy(Field(body, RequiredFields[k]));
    assert RequiredFields[k] in MissingFields(body, RequiredFields);
  }

  /** POST: an unreadable body or a failing insert ends in 500. */
  function Post(body: Option<Body>, insert: DbResult<JsVal>): (r: Reply<JsVal>)
    ensures body.None? ==> r == Reject(500, InternalServerError)
    ensures body.Some? && ValidatePost(body.value).Reject? ==> r == Reject(400, ValidatePost(body.value).message)
    ensures body.Some? && ValidatePost(body.value).Accept? && insert.DbError? ==> r == Reject(500, insert.message)
    ensures r.Accept? <==> body.Some? && ValidatePost(body.value).Accept? && insert.DbOk?
    ensures r.Accept? ==> r.value == insert.data
  {
    match body
    case None => Reject(500, InternalServerError)
    case Some(b) =>
      match ValidatePost(b)
      case Reject(status, message) => Reject(status, message)
      case Accept(_) =>
        match insert
        case DbError(message) => Reject(500, message)
        case DbOk(row) => Accept(row)
  }

  /** PATCH: `id` is required; type, pressure and flow are each checked only when present. */
  function ValidatePatch(body: Body): (r: Reply<Body>)
    ensures r.Reject? ==> r.status == 400
    ensures r.Accept? ==> r.value == body
    ensures !Truthy(Field(body, "id")) <==> r == Reject(400, "Missing required field: id")
    ensures r.Accept? <==>
              Truthy(Field(body, "id"))
              && (Truthy(Field(body, "connection_type")) ==> ValidConnectionType(Field(body, "connection_type")))
              && !OutsideRange(Field(body, "pressure_rating"), 0, MaxPressureRating)
              && !OutsideRange(Field(body, "flow_rating"), 0, MaxFlowRating)
    ensures Truthy(Field(body, "id")) && Truthy(Field(body, "connection_type"))
            && !ValidConnectionType(Field(body, "connection_type")) ==>
              r == Reject(400, InvalidTypeMessage)
    ensures Truthy(Field(body, "id"))
            && (Truthy(Field(body, "connection_type")) ==> ValidConnectionType(Field(body, "connection_type")))
            && OutsideRange(Field(body, "pressure_rating"), 0, MaxPressureRating) ==>
              r == Reject(400, PressureMessage)
    ensures Truthy(Field(body, "id"))
            && (Truthy(Field(body, "connection_type")) ==> ValidConnectionType(Field(body, "connection_type")))
            && !OutsideRange(Field(body, "pressure_rating"), 0, MaxPressureRating)
            && OutsideRange(Field(body, "flow_rating"), 0, MaxFlowRating) ==>
              r == Reject(400, FlowMessage)
  {
    if !Truthy(Field(body, "id")) then Reject(400, "Missing required field: id")
    else if Truthy(Field(body, "connection_type")) && !ValidConnectionType(Field(body, "connection_type")) then
      Reject(400, InvalidTypeMessage)
    else if Field(body, "pressure_rating") != Undefined && OutsideRange(Field(body, "pressure_rating"), 0, MaxPressureRating) then
      Reject(400, PressureMessage)
    else if Field(body, "flow_rating") != Undefined && OutsideRange(Field(body, "flow_rating"), 0, MaxFlowRating) then
      Reject(400, FlowMessage)
    else Accept(body)
  }

  /** PATCH uses POST's bounds: every body POST accepts, PATCH accepts once it has an id. */
  lemma PostValidImpliesPatchValid(body: Body)
    requires ValidatePost(body).Accept?
    requires Truthy(Field(body, "id"))
    ensures ValidatePatch(body).Accept?
  {
  }

  /** A PATCH that only names the row is always accepted. */
  lemma PatchIdOnly(id: JsVal)
    requires Truthy(id)
    ensures ValidatePatch(map["id" := id]).Accept?
  {
    assert Field(map["id" := id], "connection_type") == Undefined;
  }

  /** PATCH: an unreadable body or a failing update ends in 500. */
  function Patch(body: Option<Body>, update: DbResult<JsVal>): (r: Reply<JsVal>)
    ensures body.None? ==> r == Reject(500, InternalServerError)
    ensures body.Some? && ValidatePatch(body.value).Reject? ==> r == Reject(400, ValidatePatch(body.value).message)
    ensures body.Some? && ValidatePatch(body.value).Accept? && update.DbError? ==> r == Reject(500, update.message)
    ensures r.Accept? <==> body.Some? && ValidatePatch(body.value).Accept? && update.DbOk?
    ensures r.Accept? ==> r.value == update.data
  {
    match body
    case None => Reject(500, InternalServerError)
    case Some(b) =>
      match ValidatePatch(b)
      case Reject(status, message) => Reject(status, message)
      case Accept(_) =>
        match update
        case DbError(message) => Reject(500, message)
        case DbOk(row) => Accept(row)
  }

  /** GET ?machineId=…: the connections of one machine (`connections || []`). */
  function Get(machineId: Option<string>, env: ServiceEnv, query: DbResult<Option<seq<JsVal>>>): (r: Reply<seq<JsVal>>)
    ensures !ParamPresent(machineId) <==> r == Reject(400, "Missing machineId")
    ensures ParamPresent(machineId) && !env.Configured() ==> r == Reject(500, ServerConfigError)
    ensures ParamPresent(machineId) && env.Configured() && query.DbError? ==> r == Reject(500, query.message)
    ensures r.Accept? <==> ParamPresent(machineId) && env.Configured() && query.DbOk?
    ensures r.Accept? ==> r.value == query.data.GetOr([])
  {
    if !ParamPresent(machineId) then Reject(400, "Missing machineId")
    else if !env.Configured() then Reject(500, ServerConfigError)
    else match query
      case DbError(message) => Reject(500, message)
      case DbOk(rows) => Accept(rows.GetOr([]))
  }

  /** DELETE ?id=…: removes one connection. */
  function Delete(id: Option<string>, env: ServiceEnv, deletion: DbResult<()>): (r: Reply<()>)
    ensures !ParamPresent(id) <==> r == Reject(400, "Missing connection id")
    ensures ParamPresent(id) && !env.Configured() ==> r == Reject(500, ServerConfigError)
    ensures ParamPresent(id) && env.Configured() && deletion.DbError? ==> r == Reject(500, deletion.message)
    ensures r.Accept? <==> ParamPresent(id) && env.Configured() && deletion.DbOk?
  {
    if !ParamPresent(id) then Reject(400, "Missing connection id")
    else if !env.Configured() then Reject(500, ServerConfigError)
    else match deletion
      case DbError(message) => Reject(500, message)
      case DbOk(_) => Accept(())
  }
}
