/** The inspection page (Checklist.tsx): it reads the equipment and operator
    ids from the query string, loads both lists through the API client, and
    selects the first record with each id, or sends the user home. */
module ChecklistPage {
  import opened Collections
  import opened Types
  import opened OperatorsService
  import opened SqlServerService

  /** `!searchParams.get(key)` is false: the parameter is present and not empty. */
  predicate HasParam(params: map<string, string>, key: string) {
    key in params && params[key] != ""
  }

  /** `equipments.find(e => e.id === equipmentId)`. */
  function FindEquipment(equipments: seq<Equipment>, id: string): (r: Option<Equipment>)
    ensures r.None? <==> forall i :: 0 <= i < |equipments| ==> equipments[i].id != id
    ensures r.Some? ==> exists k :: 0 <= k < |equipments| && equipments[k] == r.value && r.value.id == id
                                    && forall j :: 0 <= j < k ==> equipments[j].id != id
  {
    var p := (e: Equipment) => e.id == id;
    var r := FindFirst(equipments, p);
    if r.Some? then
      assert equipments[FirstIndex(equipments, p)] == r.value;
      r
    else r
  }

  /** When ids are unique, the record found is the only one with the id. */
  lemma FoundEquipmentIsUnique(equipments: seq<Equipment>, id: string, i: nat)
    requires DistinctKeys(equipments, EquipmentId) && i < |equipments| && equipments[i].id == id
    ensures FindEquipment(equipments, id) == Some(equipments[i])
  {
    var r := FindEquipment(equipments, id);
    var k :| 0 <= k < |equipments| && equipments[k] == r.value && r.value.id == id
             && forall j :: 0 <= j < k ==> equipments[j].id != id;
  }

  /** With the operator server down, every roster operator can still be
      selected: the fallback list holds the whole roster. */
  lemma RosterOperatorFoundOffline(id: string, i: nat)
    requires i < |OperatorsList| && OperatorsList[i].id == id
    ensures FindOperator(GetOperatorsFromServer(Err), id).Some?
  {
    var fallback := GetOperatorsFromServer(Err);
    assert OperatorsList[i] in multiset(OperatorsList);
    assert OperatorsList[i] in multiset(fallback);
    var k :| 0 <= k < |fallback| && fallback[k] == OperatorsList[i];
  }

  /** What `fetchData` ends in. */
  datatype FetchEnd = Selected(equipment: Equipment, operator: Operator) | RedirectedHome

  class ChecklistPage {
    var loading: bool
    var equipment: Option<Equipment>
    var operator: Option<Operator>

    constructor ()
      ensures loading && equipment == None && operator == None
    {
      loading := true;
      equipment := None;
      operator := None;
    }

    /** `fetchData`. `equipmentsResponse` and `operatorsResponse` are the
        outcomes of the two requests, passed through `getEquipmentsFromServer`
        and `getOperatorsFromServer`. A failed equipment request gives a value
        that is not a list, so `find` throws and the catch block sends the
        user home; a failed operator request falls back to the roster. Both
        lists are fetched exactly when both parameters are present. Every
        path ends with `loading` false; only `Selected` changes the
        selection. */
    method FetchData(params: map<string, string>, equipmentsResponse: Outcome<seq<Equipment>>,
                     operatorsResponse: Outcome<seq<Operator>>)
      returns (end: FetchEnd, listsFetched: nat)
      modifies this
      ensures !loading
      ensures !(HasParam(params, "equipmentId") && HasParam(params, "operatorId")) ==> end.RedirectedHome? && listsFetched == 0
      ensures HasParam(params, "equipmentId") && HasParam(params, "operatorId") ==> listsFetched == 2
      ensures end.Selected? <==>
                HasParam(params, "equipmentId") && HasParam(params, "operatorId") && equipmentsResponse.Ok?
                && FindEquipment(equipmentsResponse.value, params["equipmentId"]).Some?
                && FindOperator(GetOperatorsFromServer(operatorsResponse), params["operatorId"]).Some?
      ensures end.Selected? ==> end.equipment == FindEquipment(equipmentsResponse.value, params["equipmentId"]).value
                                && end.operator == FindOperator(GetOperatorsFromServer(operatorsResponse), params["operatorId"]).value
                                && equipment == Some(end.equipment) && operator == Some(end.operator)
      ensures end.RedirectedHome? ==> equipment == old(equipment) && operator == old(operator)
    {
      loading := true;
      listsFetched := 0;
      if !("equipmentId" in params && params["equipmentId"] != "") || !("operatorId" in params && params["operatorId"] != "") {
        end := RedirectedHome;
        loading := false;
        return;
      }
      var equipmentId, operatorId := params["equipmentId"], params["operatorId"];
      var equipments := GetEquipmentsFromServer(equipmentsResponse);
      var operators := GetOperatorsFromServer(operatorsResponse);
      listsFetched := 2;
      if equipments.Err? {
        end := RedirectedHome;
        loading := false;
        return;
      }
      var selectedEquipment := FindEquipment(equipments.value, equipmentId);
      var selectedOperator := FindOperator(operators, operatorId);
      if selectedEquipment.None? || selectedOperator.None? {
        end := RedirectedHome;
      } else {
        equipment := selectedEquipment;
        operator := selectedOperator;
        end := Selected(selectedEquipment.value, selectedOperator.value);
      }
      loading := false;
    }
  }
}
