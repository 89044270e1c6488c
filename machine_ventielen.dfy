/**
 * The valve API route (app/api/machine-ventielen/route.ts): required fields
 * and defaults of POST, the update payload of PATCH, and the parameter
 * checks of GET and DELETE. Database and environment results are parameters.
 */
module MachineVentielen {
  import opened Wrappers
  import opened Js
  import opened Http

  const RequiredFields: seq<string> := ["machine_id", "ventiel_nummer", "functie_naam", "positie", "ventiel_type"]
  const MissingMessage := "Missing required fields: machine_id, ventiel_nummer, functie_naam, positie, ventiel_type"
  const IdRequired := "Ventiel ID is required"
  const MachineIdRequired := "Machine ID is required"

  /** The row POST inserts. */
  datatype VentielRow = VentielRow(
    machineId: JsVal, ventielNummer: JsVal, functieNaam: JsVal, positie: JsVal, ventielType: JsVal,
    omschrijving: JsVal, kleurCode: JsVal, poortALabel: JsVal, poortBLabel: JsVal, volgorde: JsVal, actief: JsVal)

  /** The row POST inserts: fields copied from the body, the port labels and
      the order defaulted with `||`, `actief` defaulted only when absent. */
  function InsertRow(body: Body): (row: VentielRow)
    ensures row.machineId == Field(body, "machine_id") && row.ventielNummer == Field(body, "ventiel_nummer")
    ensures row.functieNaam == Field(body, "functie_naam") && row.positie == Field(body, "positie")
    ensures row.ventielType == Field(body, "ventiel_type")
    ensures row.omschrijving == Field(body, "omschrijving") && row.kleurCode == Field(body, "kleur_code")
    ensures Truthy(row.poortALabel) && Truthy(row.poortBLabel) && Truthy(row.volgorde)
    ensures Truthy(Field(body, "poort_a_label")) <==> row.poortALabel == Field(body, "poort_a_label")
    ensures Truthy(Field(body, "poort_b_label")) <==> row.poortBLabel == Field(body, "poort_b_label")
    ensures Truthy(Field(body, "volgorde")) <==> row.volgorde == Field(body, "volgorde")
    ensures !Truthy(Field(body, "poort_a_label")) ==> row.poortALabel == Str("A")
    ensures !Truthy(Field(body, "poort_b_label")) ==> row.poortBLabel == Str("B")
    ensures !Truthy(Field(body, "volgorde")) ==> row.volgorde == Num(1)
    ensures row.actief != Undefined
    ensures Field(body, "actief") == Undefined ==> row.actief == Bool(true)
    ensures Field(body, "actief") != Undefined ==> row.actief == Field(body, "actief")
  {
    VentielRow(
      Field(body, "machine_id"), Field(body, "ventiel_nummer"), Field(body, "functie_naam"),
      Field(body, "positie"), Field(body, "ventiel_type"), Field(body, "omschrijving"), Field(body, "kleur_code"),
      Or(Field(body, "poort_a_label"), Str("A")),
      Or(Field(body, "poort_b_label"), Str("B")),
      Or(Field(body, "volgorde"), Num(1)),
      if Field(body, "actief") == Undefined then Bool(true) else Field(body, "actief"))
  }

  /** POST validation: the five required fields must all be truthy. */
  function ValidatePost(body: Body): (r: Reply<VentielRow>)
    ensures r.Accept? <==> forall k :: k in RequiredFields ==> Truthy(Field(body, k))
    ensures r.Reject? ==> r == Reject(400, MissingMessage)
    ensures r.Accept? ==> r.value == InsertRow(body)
  {
    if !Truthy(Field(body, "machine_id")) || !Truthy(Field(body, "ventiel_nummer")) || !Truthy(Field(body, "functie_naam"))
       || !Truthy(Field(body, "positie")) || !Truthy(Field(body, "ventiel_type"))
    then Reject(400, MissingMessage)
    else Accept(InsertRow(body))
  }

  /** POST: an unreadable body, a missing service key or a failing insert end in 500. */
  function Post(body: Option<Body>, env: ServiceEnv, insert: DbResult<JsVal>): (r: Reply<JsVal>)
    ensures body.None? ==> r == Reject(500, InternalServerError)
    ensures body.Some? && ValidatePost(body.value).Reject? ==> r == Reject(400, MissingMessage)
    ensures body.Some? && ValidatePost(body.value).Accept? && !env.Configured() ==> r == Reject(500, ServerConfigError)
    ensures body.Some? && ValidatePost(body.value).Accept? && env.Configured() && insert.DbError? ==>
              r == Reject(500, insert.message)
    ensures r.Accept? <==> body.Some? && ValidatePost(body.value).Accept? && env.Configured() && insert.DbOk?
    ensures r.Accept? ==> r.value == insert.data
  {
    if body.None? then Reject(500, InternalServerError)
    else if ValidatePost(body.value).Reject? then Reject(400, MissingMessage)
    else if !env.Configured() then Reject(500, ServerConfigError)
    else match insert
      case DbError(message) => Reject(500, message)
      case DbOk(row) => Accept(row)
  }

  /** `const { id, ...updateData } = body` */
  function UpdatePayload(body: Body): (payload: Body)
    ensures "id" !in payload
    ensures forall k :: k != "id" ==> (k in payload <==> k in body)
    ensures forall k :: k in payload ==> payload[k] == body[k]
  {
    body - {"id"}
  }

  /** Putting the id back onto the payload gives the body again. */
  lemma {:induction false} UpdatePayloadRoundTrip(body: Body)
    requires "id" in body
    ensures UpdatePayload(body)["id" := body["id"]] == body
  {
    var p := UpdatePayload(body)["id" := body["id"]];
    assert p.Keys == body.Keys;
    assert forall k :: k in p ==> p[k] == body[k];
  }

  /** PATCH: `id` is required; the rest of the body is the update. */
  function ValidatePatch(body: Body): (r: Reply<Body>)
    ensures r.Reject? <==> !Truthy(Field(body, "id"))
    ensures r.Reject? ==> r == Reject(400, IdRequired)
    ensures r.Accept? ==> r.value == UpdatePayload(body)
  {
    if !Truthy(Field(body, "id")) then Reject(400, IdRequired) else Accept(UpdatePayload(body))
  }

  /** PATCH: an unreadable body, a missing service key or a failing update end in 500. */
  function Patch(body: Option<Body>, env: ServiceEnv, update: DbResult<JsVal>): (r: Reply<JsVal>)
    ensures body.None? ==> r == Reject(500, InternalServerError)
    ensures body.Some? && !Truthy(Field(body.value, "id")) ==> r == Reject(400, IdRequired)
    ensures body.Some? && Truthy(Field(body.value, "id")) && !env.Configured() ==> r == Reject(500, ServerConfigError)
    ensures body.Some? && Truthy(Field(body.value, "id")) && env.Configured() && update.DbError? ==>
              r == Reject(500, update.message)
    ensures r.Accept? <==> body.Some? && Truthy(Field(body.value, "id")) && env.Configured() && update.DbOk?
    ensures r.Accept? ==> r.value == update.data
  {
    if body.None? then Reject(500, InternalServerError)
    else if ValidatePatch(body.value).Reject? then Reject(400, IdRequired)
    else if !env.Configured() then Reject(500, ServerConfigError)
    else match update
      case DbError(message) => Reject(500, message)
      case DbOk(row) => Accept(row)
  }

  /** GET ?machineId=…: the valves of one machine (`data || []`). */
  function Get(machineId: Option<string>, env: ServiceEnv, query: DbResult<Option<seq<JsVal>>>): (r: Reply<seq<JsVal>>)
    ensures !ParamPresent(machineId) <==> r == Reject(400, MachineIdRequired)
    ensures ParamPresent(machineId) && !env.Configured() ==> r == Reject(500, ServerConfigError)
    ensures ParamPresent(machineId) && env.Configured() && query.DbError? ==> r == Reject(500, query.message)
    ensures r.Accept? <==> ParamPresent(machineId) && env.Configured() && query.DbOk?
    ensures r.Accept? ==> r.value == query.data.GetOr([])
  {
    if !ParamPresent(machineId) then Reject(400, MachineIdRequired)
    else if !env.Configured() then Reject(500, ServerConfigError)
    else match query
      case DbError(message) => Reject(500, message)
      case DbOk(rows) => Accept(rows.GetOr([]))
  }

  /** DELETE ?id=…: removes one valve. */
  function Delete(id: Option<string>, env: ServiceEnv, deletion: DbResult<()>): (r: Reply<()>)
    ensures !ParamPresent(id) <==> r == Reject(400, IdRequired)
    ensures ParamPresent(id) && !env.Configured() ==> r == Reject(500, ServerConfigError)
    ensures ParamPresent(id) && env.Configured() && deletion.DbError? ==> r == Reject(500, deletion.message)
    ensures r.Accept? <==> ParamPresent(id) && env.Configured() && deletion.DbOk?
  {
    if !ParamPresent(id) then Reject(400, IdRequired)
    else if !env.Configured() then Reject(500, ServerConfigError)
    else match deletion
      case DbError(message) => Reject(500, message)
      case DbOk(_) => Accept(())
  }
}
