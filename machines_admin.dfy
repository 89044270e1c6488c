/**
 * The machines admin screen (components/admin/MachinesAdmin.tsx): the default
 * hydraulic inputs generated for a new machine, the colours its preview
 * shows, the update a save sends and the order in which a machine and its
 * dependent rows are deleted. Database calls are parameters or requests.
 */
module MachinesAdmin {
  import opened Wrappers
  import opened Js
  import opened Text
  import opened Http

  /** One row of `machine_hydraulic_inputs` as `addNewMachine` generates it. */
  datatype DefaultInput = DefaultInput(
    machineId: string, inputNummer: int, inputKleur: string, inputLabel: string,
    functieBeschrijving: string, volgorde: int, drukRating: int, debietRating: int)

  const DefaultInputCount := 2
  const DefaultPressure := 200
  const DefaultFlow := 50

  /** `newMachine.hydraulische_inputs || 2`; the form stores `parseInt` of
      the chosen option, None while unset. */
  function InputCount(hydraulischeInputs: Option<int>): (n: int)
    ensures hydraulischeInputs.None? || hydraulischeInputs == Some(0) ==> n == DefaultInputCount
    ensures hydraulischeInputs.Some? && hydraulischeInputs.value != 0 ==> n == hydraulischeInputs.value
  {
    if hydraulischeInputs.None? || hydraulischeInputs.value == 0 then DefaultInputCount else hydraulischeInputs.value
  }

  /** The colour a generated input is stored with. */
  function StoredColour(i: int): string {
    if i == 1 then "rood" else if i == 2 then "blauw" else if i == 3 then "geel" else "groen"
  }

  /** `addNewMachine` after the machine row is inserted: input i, for i from
      1 to the count, with its number, order, label, colour, function and
      ratings; the inputs are inserted only when there is at least one. A
      failed machine insert stops before any input. */
  method AddNewMachine(hydraulischeInputs: Option<int>, machineInsert: DbResult<string>)
    returns (inputs: seq<DefaultInput>, insertInputs: bool)
    ensures machineInsert.DbError? ==> inputs == [] && !insertInputs
    ensures machineInsert.DbOk? ==> |inputs| == if InputCount(hydraulischeInputs) > 0 then InputCount(hydraulischeInputs) else 0
    ensures insertInputs <==> inputs != []
    ensures forall k :: 0 <= k < |inputs| ==>
              inputs[k].machineId == machineInsert.data
              && inputs[k].inputNummer == k + 1 && inputs[k].volgorde == k + 1
              && inputs[k].inputLabel == "Input " + NatToString(k + 1)
              && inputs[k].inputKleur == StoredColour(k + 1)
              && inputs[k].drukRating == DefaultPressure && inputs[k].debietRating == DefaultFlow
    ensures forall k :: 0 <= k < |inputs| ==>
              inputs[k].functieBeschrijving ==
                if k == 0 then "Hoofdfunctie" else if k == 1 then "Hulpfunctie" else "Extra functie " + NatToString(k + 1)
  {
    inputs := [];
    if machineInsert.DbError? {
      return inputs, false;
    }
    var inputCount := InputCount(hydraulischeInputs);
    var i := 1;
    while i <= inputCount
      invariant 1 <= i
      invariant inputCount > 0 ==> i <= inputCount + 1
      invariant inputCount <= 0 ==> i == 1
      invariant |inputs| == i - 1
      invariant forall k :: 0 <= k < |inputs| ==>
                  inputs[k].machineId == machineInsert.data
                  && inputs[k].inputNummer == k + 1 && inputs[k].volgorde == k + 1
                  && inputs[k].inputLabel == "Input " + NatToString(k + 1)
                  && inputs[k].inputKleur == StoredColour(k + 1)
                  && inputs[k].drukRating == DefaultPressure && inputs[k].debietRating == DefaultFlow
      invariant forall k :: 0 <= k < |inputs| ==>
                  inputs[k].functieBeschrijving ==
                    if k == 0 then "Hoofdfunctie" else if k == 1 then "Hulpfunctie" else "Extra functie " + NatToString(k + 1)
    {
      var kleur := StoredColour(i);
      var functie := if i == 1 then "Hoofdfunctie" else if i == 2 then "Hulpfunctie" else "Extra functie " + NatToString(i);
      inputs := inputs + [DefaultInput(machineInsert.data, i, kleur, "Input " + NatToString(i), functie, i,
                                       DefaultPressure, DefaultFlow)];
      i := i + 1;
    }
    insertInputs := |inputs| > 0;
  }

  /** The stored colours: red, blue, yellow, then green for every further input. */
  lemma StoredColours(i: int)
    requires i >= 1
    ensures i == 1 <==> StoredColour(i) == "rood"
    ensures i == 2 <==> StoredColour(i) == "blauw"
    ensures i == 3 <==> StoredColour(i) == "geel"
    ensures i >= 4 <==> StoredColour(i) == "groen"
  {
  }

  /** The colour the add dialog's preview shows for input i. */
  function PreviewColour(i: int): string {
    if i == 1 then "rood" else if i == 2 then "blauw" else if i == 3 then "geel" else if i == 4 then "groen"
    else if i == 5 then "oranje" else if i == 6 then "paars" else if i == 7 then "zwart" else "wit"
  }

  /** The preview agrees with what is stored for the first four inputs and
      shows another colour than the stored green from the fifth on. */
  lemma PreviewMatchesStoredUpToFour(i: int)
    requires i >= 1
    ensures PreviewColour(i) == StoredColour(i) <==> i <= 4
    ensures i >= 5 ==> StoredColour(i) == "groen" && PreviewColour(i) in {"oranje", "paars", "zwart", "wit"}
  {
    if i >= 5 {
      assert PreviewColour(i) != "groen" by {
        assert PreviewColour(i)[0] != 'g';
      }
    }
  }

  /** The thirteen machine columns `saveMachine` writes; the record has no
      place for the id or the joined hydraulic inputs of the edit form. */
  datatype MachinePayload = MachinePayload(
    naam: JsVal, beschrijving: JsVal, machineType: JsVal, gewicht: JsVal, werkdruk: JsVal, maxDruk: JsVal,
    debiet: JsVal, vermogen: JsVal, kenteken: JsVal, hydraulischeInputs: JsVal, afbeelding: JsVal,
    aansluitingType: JsVal, layoutBeschrijving: JsVal)

  /** The `update` request of `saveMachine`: the id of the edited machine and the payload. */
  datatype MachineUpdate = MachineUpdate(id: string, payload: MachinePayload)

  /** `saveMachine`: nothing without a machine being edited; otherwise each
      machine column as the edit form holds it. */
  function SaveMachine(editingMachine: Option<string>, editForm: Body): (r: Option<MachineUpdate>)
    ensures r.None? <==> editingMachine.None? || editingMachine.value == []
    ensures r.Some? ==> r.value.id == editingMachine.value
    ensures r.Some? ==> var p := r.value.payload;
              p.naam == Field(editForm, "naam") && p.beschrijving == Field(editForm, "beschrijving")
              && p.machineType == Field(editForm, "type") && p.gewicht == Field(editForm, "gewicht")
              && p.werkdruk == Field(editForm, "werkdruk") && p.maxDruk == Field(editForm, "max_druk")
              && p.debiet == Field(editForm, "debiet") && p.vermogen == Field(editForm, "vermogen")
              && p.kenteken == Field(editForm, "kenteken") && p.hydraulischeInputs == Field(editForm, "hydraulische_inputs")
              && p.afbeelding == Field(editForm, "afbeelding") && p.aansluitingType == Field(editForm, "aansluiting_type")
              && p.layoutBeschrijving == Field(editForm, "layout_beschrijving")
  {
    if editingMachine.None? || editingMachine.value == [] then None
    else Some(MachineUpdate(editingMachine.value, MachinePayload(
      Field(editForm, "naam"), Field(editForm, "beschrijving"), Field(editForm, "type"), Field(editForm, "gewicht"),
      Field(editForm, "werkdruk"), Field(editForm, "max_druk"), Field(editForm, "debiet"), Field(editForm, "vermogen"),
      Field(editForm, "kenteken"), Field(editForm, "hydraulische_inputs"), Field(editForm, "afbeelding"),
      Field(editForm, "aansluiting_type"), Field(editForm, "layout_beschrijving"))))
  }

  /** One `delete().eq(column, value)` call. */
  datatype Deletion = Deletion(table: string, column: string, value: string)

  /** `deleteMachine`: after the confirmation, the machine's hydraulic inputs
      and attachment links, then the machine row itself. */
  function DeleteMachine(machineId: string, confirmed: bool): (ops: seq<Deletion>)
    ensures !confirmed <==> ops == []
    ensures confirmed ==> ops[|ops| - 1] == Deletion("machines", "id", machineId)
    ensures forall i :: 0 <= i < |ops| - 1 ==> ops[i].column == "machine_id" && ops[i].value == machineId
    ensures confirmed ==> (exists i :: 0 <= i < |ops| - 1 && ops[i].table == "machine_hydraulic_inputs")
                          && (exists i :: 0 <= i < |ops| - 1 && ops[i].table == "attachment_machines")
  {
    if !confirmed then []
    else
      var ops := [Deletion("machine_hydraulic_inputs", "machine_id", machineId),
                  Deletion("attachment_machines", "machine_id", machineId),
                  Deletion("machines", "id", machineId)];
      assert ops[0].table == "machine_hydraulic_inputs" && ops[1].table == "attachment_machines";
      ops
  }
}
