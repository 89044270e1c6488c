/**
 * The machine hydraulic-input API route
 * (app/api/machine-hydraulic-inputs/route.ts): required fields, the record
 * POST inserts and the record PATCH writes. Database results are parameters;
 * this route builds its database client at load time and checks no
 * environment variables per request.
 */
module HydraulicInputs {
  import opened Wrappers
  import opened Js
  import opened Http

  const MachineIdRequired := "Machine ID is required"
  const IdRequired := "ID is required"
  const MissingFieldsMessage := "Missing required fields"

  /** The record POST inserts; no other body field reaches the database. */
  datatype InputRecord = InputRecord(machineId: JsVal, inputNummer: JsVal, kleur: JsVal, volgorde: JsVal)

  /** The record PATCH writes; `machine_id` is never changed. */
  datatype InputUpdate = InputUpdate(inputNummer: JsVal, kleur: JsVal, volgorde: JsVal)

  /** POST validation and record construction: `volgorde || input_nummer`. */
  function ValidatePost(body: Body): (r: Reply<InputRecord>)
    ensures r.Accept? <==>
              Truthy(Field(body, "machine_id")) && Truthy(Field(body, "input_nummer")) && Truthy(Field(body, "kleur"))
    ensures r.Reject? ==> r == Reject(400, MissingFieldsMessage)
    ensures r.Accept? ==> r.value.machineId == Field(body, "machine_id") && r.value.inputNummer == Field(body, "input_nummer")
                          && r.value.kleur == Field(body, "kleur")
    ensures r.Accept? ==> Truthy(r.value.volgorde)
    ensures r.Accept? && Truthy(Field(body, "volgorde")) ==> r.value.volgorde == Field(body, "volgorde")
    ensures r.Accept? && !Truthy(Field(body, "volgorde")) ==> r.value.volgorde == r.value.inputNummer
  {
    if !Truthy(Field(body, "machine_id")) || !Truthy(Field(body, "input_nummer")) || !Truthy(Field(body, "kleur"))
    then Reject(400, MissingFieldsMessage)
    else Accept(InputRecord(Field(body, "machine_id"), Field(body, "input_nummer"), Field(body, "kleur"),
                            Or(Field(body, "volgorde"), Field(body, "input_nummer"))))
  }

  /** Only the four record fields matter: two bodies that agree on them give
      the same record, whatever else they carry. */
  lemma PostIgnoresOtherFields(a: Body, b: Body)
    requires forall k :: k in ["machine_id", "input_nummer", "kleur", "volgorde"] ==> Field(a, k) == Field(b, k)
    ensures ValidatePost(a) == ValidatePost(b)
  {
    assert Field(a, "machine_id") == Field(b, "machine_id");
    assert Field(a, "input_nummer") == Field(b, "input_nummer");
    assert Field(a, "kleur") == Field(b, "kleur");
    assert Field(a, "volgorde") == Field(b, "volgorde");
  }

  function Post(body: Option<Body>, insert: DbResult<JsVal>): (r: Reply<JsVal>)
    ensures body.None? ==> r == Reject(500, InternalServerError)
    ensures body.Some? && ValidatePost(body.value).Reject? ==> r == Reject(400, MissingFieldsMessage)
    ensures body.Some? && ValidatePost(body.value).Accept? && insert.DbError? ==> r == Reject(500, "Failed to create hydraulic input")
    ensures r.Accept? <==> body.Some? && ValidatePost(body.value).Accept? && insert.DbOk?
    ensures r.Accept? ==> r.value == insert.data
  {
    if body.None? then Reject(500, InternalServerError)
    else if ValidatePost(body.value).Reject? then Reject(400, MissingFieldsMessage)
    else match insert
      case DbError(_) => Reject(500, "Failed to create hydraulic input")
      case DbOk(row) => Accept(row)
  }

  /** PATCH: `id` is required; exactly input_nummer, kleur and volgorde are written. */
  function ValidatePatch(body: Body): (r: Reply<InputUpdate>)
    ensures r.Reject? <==> !Truthy(Field(body, "id"))
    ensures r.Reject? ==> r == Reject(400, IdRequired)
    ensures r.Accept? ==> r.value.inputNummer == Field(body, "input_nummer") && r.value.kleur == Field(body, "kleur")
                          && r.value.volgorde == Field(body, "volgorde")
  {
    if !Truthy(Field(body, "id")) then Reject(400, IdRequired)
    else Accept(InputUpdate(Field(body, "input_nummer"), Field(body, "kleur"), Field(body, "volgorde")))
  }

  function Patch(body: Option<Body>, update: DbResult<JsVal>): (r: Reply<JsVal>)
    ensures body.None? ==> r == Reject(500, InternalServerError)
    ensures body.Some? && !Truthy(Field(body.value, "id")) ==> r == Reject(400, IdRequired)
    ensures body.Some? && Truthy(Field(body.value, "id")) && update.DbError? ==>
              r == Reject(500, "Failed to update hydraulic input")
    ensures r.Accept? <==> body.Some? && Truthy(Field(body.value, "id")) && update.DbOk?
    ensures r.Accept? ==> r.value == update.data
  {
    if body.None? then Reject(500, InternalServerError)
    else if ValidatePatch(body.value).Reject? then Reject(400, IdRequired)
    else match update
      case DbError(_) => Reject(500, "Failed to update hydraulic input")
      case DbOk(row) => Accept(row)
  }

  /** GET ?machineId=…: the inputs of one machine (`data || []`). */
  function Get(machineId: Option<string>, query: DbResult<Option<seq<JsVal>>>): (r: Reply<seq<JsVal>>)
    ensures !ParamPresent(machineId) <==> r == Reject(400, MachineIdRequired)
    ensures ParamPresent(machineId) && query.DbError? ==> r == Reject(500, "Failed to fetch hydraulic inputs")
    ensures r.Accept? <==> ParamPresent(machineId) && query.DbOk?
    ensures r.Accept? ==> r.value == query.data.GetOr([])
  {
    if !ParamPresent(machineId) then Reject(400, MachineIdRequired)
    else match query
      case DbError(_) => Reject(500, "Failed to fetch hydraulic inputs")
      case DbOk(rows) => Accept(rows.GetOr([]))
  }

  /** DELETE ?id=…: removes one input. */
  function Delete(id: Option<string>, deletion: DbResult<()>): (r: Reply<()>)
    ensures !ParamPresent(id) <==> r == Reject(400, IdRequired)
    ensures ParamPresent(id) && deletion.DbError? ==> r == Reject(500, "Failed to delete hydraulic input")
    ensures r.Accept? <==> ParamPresent(id) && deletion.DbOk?
  {
    if !ParamPresent(id) then Reject(400, IdRequired)
    else match deletion
      case DbError(_) => Reject(500, "Failed to delete hydraulic input")
      case DbOk(_) => Accept(())
  }
}
