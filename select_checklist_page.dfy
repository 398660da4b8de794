/** The start page (SelectChecklist.tsx): loads the equipment and operator
    lists, and builds the inspection page's address from the two choices. */
module SelectChecklistPage {
  import opened Collections
  import opened Types
  import opened OperatorsService

  const PathPrefix: string := "/checklist?equipmentId="
  const OperatorParam: string := "&operatorId="

  /** The address `handleStartChecklist` navigates to, or `None` when either
      choice is empty and nothing happens. The ids are not URL-encoded. */
  function StartPath(equipmentId: string, operatorId: string): (p: Option<string>)
    ensures p.None? <==> equipmentId == "" || operatorId == ""
    ensures p.Some? ==> |p.value| == |PathPrefix| + |equipmentId| + |OperatorParam| + |operatorId|
    ensures p.Some? ==> p.value[..|PathPrefix|] == PathPrefix
    ensures p.Some? ==> p.value[|PathPrefix|..|PathPrefix| + |equipmentId|] == equipmentId
    ensures p.Some? ==> p.value[|PathPrefix| + |equipmentId|..] == OperatorParam + operatorId
  {
    if equipmentId == "" || operatorId == "" then None
    else Some(PathPrefix + equipmentId + OperatorParam + operatorId)
  }

  /** In an address, the first `&` after the prefix ends the equipment id. */
  lemma EquipmentIdEndsAtAmpersand(equipmentId: string, operatorId: string)
    requires '&' !in equipmentId && StartPath(equipmentId, operatorId).Some?
    ensures var p := StartPath(equipmentId, operatorId).value;
            p[|PathPrefix| + |equipmentId|] == '&' &&
            forall i :: |PathPrefix| <= i < |PathPrefix| + |equipmentId| ==> p[i] != '&'
  {
    var p := StartPath(equipmentId, operatorId).value;
    assert p[|PathPrefix| + |equipmentId|] == (OperatorParam + operatorId)[0];
    forall i | |PathPrefix| <= i < |PathPrefix| + |equipmentId| ensures p[i] != '&' {
      assert p[i] == equipmentId[i - |PathPrefix|];
    }
  }

  /** When no equipment id contains `&`, the address determines both ids. */
  lemma {:induction false} StartPathInjective(e1: string, o1: string, e2: string, o2: string)
    requires '&' !in e1 && '&' !in e2
    requires StartPath(e1, o1).Some? && StartPath(e1, o1) == StartPath(e2, o2)
    ensures e1 == e2 && o1 == o2
  {
    var p := StartPath(e1, o1).value;
    var n := |PathPrefix|;
    EquipmentIdEndsAtAmpersand(e1, o1);
    EquipmentIdEndsAtAmpersand(e2, o2);
    assert |e1| == |e2|;
    assert e1 == p[n..n + |e1|] == e2;
    assert OperatorParam + o1 == p[n + |e1|..] == OperatorParam + o2;
    assert o1 == (OperatorParam + o1)[|OperatorParam|..] == (OperatorParam + o2)[|OperatorParam|..] == o2;
  }

  /** Without encoding, an equipment id holding `&operatorId=` produces the
      same address as a different pair of choices. */
  lemma UnencodedIdsCollide()
    ensures StartPath("1&operatorId=2", "3") == StartPath("1", "2&operatorId=3")
  {
    assert "1&operatorId=2" == "1" + OperatorParam + "2";
    assert "2&operatorId=3" == "2" + OperatorParam + "3";
    var x, y, z := "1", "2", "3";
    assert PathPrefix + (x + OperatorParam + y) + OperatorParam + z
        == PathPrefix + x + OperatorParam + (y + OperatorParam + z);
  }

  class SelectChecklistPage {
    var loading: bool
    var equipments: seq<Equipment>
    var operators: seq<Operator>
    var selectedEquipmentId: string
    var selectedOperatorId: string

    constructor ()
      ensures loading && equipments == [] && operators == []
      ensures selectedEquipmentId == "" && selectedOperatorId == ""
    {
      loading := true;
      equipments, operators := [], [];
      selectedEquipmentId, selectedOperatorId := "", "";
    }

    /** The mount effect. `equipmentsData` is the awaited `getEquipments` of
        the checklist service; the operators come from the operator service's
        `getOperators`, which answers at once with the roster ordered by name
        and cannot fail. `loadingDuringFetch` is the flag while the equipment
        call is awaited. Both lists are set only when the equipment call
        succeeds; `loading` is false afterwards either way. */
    method FetchData(equipmentsData: Outcome<seq<Equipment>>)
      returns (loadingDuringFetch: bool)
      modifies this
      ensures loadingDuringFetch && !loading
      ensures equipmentsData.Ok? ==> equipments == equipmentsData.value && operators == GetOperators()
      ensures equipmentsData.Ok? ==> SortedByName(operators) && multiset(operators) == multiset(OperatorsList)
      ensures equipmentsData.Err? ==> equipments == old(equipments) && operators == old(operators)
      ensures selectedEquipmentId == old(selectedEquipmentId) && selectedOperatorId == old(selectedOperatorId)
    {
      loading := true;
      loadingDuringFetch := loading;
      if equipmentsData.Ok? {
        equipments := equipmentsData.value;
        operators := GetOperators();
      }
      loading := false;
    }

    /** The equipment selector's `onValueChange`. */
    method SelectEquipment(id: string)
      modifies this
      ensures selectedEquipmentId == id && selectedOperatorId == old(selectedOperatorId)
      ensures loading == old(loading) && equipments == old(equipments) && operators == old(operators)
    {
      selectedEquipmentId := id;
    }

    /** The operator selector's `onValueChange`. */
    method SelectOperator(id: string)
      modifies this
      ensures selectedOperatorId == id && selectedEquipmentId == old(selectedEquipmentId)
      ensures loading == old(loading) && equipments == old(equipments) && operators == old(operators)
    {
      selectedOperatorId := id;
    }

    /** `handleStartChecklist`: the address navigated to, if any. */
    method HandleStartChecklist() returns (target: Option<string>)
      ensures target == StartPath(selectedEquipmentId, selectedOperatorId)
      ensures target.None? <==> selectedEquipmentId == "" || selectedOperatorId == ""
    {
      if selectedEquipmentId == "" || selectedOperatorId == "" {
        return None;
      }
      target := Some("/checklist?equipmentId=" + selectedEquipmentId + "&operatorId=" + selectedOperatorId);
    }
  }
}
