/** The equipment tab of the administration area (EquipmentManagement.tsx):
    add, edit and delete, each confirmed by a server call whose outcome is an
    input. The list itself belongs to the parent component; it is a field
    here because the handlers replace it through the parent's setter. */
module EquipmentManagement {
  import opened Collections
  import opened Types

  /** The keys `handleEditChange` and `handleNewEquipmentChange` accept. */
  datatype EquipmentField = IdField | NameField | KindField | CapacityField | SectorField

  function GetField(e: Equipment, f: EquipmentField): string {
    match f
    case IdField => e.id
    case NameField => e.name
    case KindField => e.kind
    case CapacityField => e.capacity
    case SectorField => e.sector
  }

  /** `{ ...e, [field]: value }`: only the named field changes. */
  function SetField(e: Equipment, f: EquipmentField, value: string): (r: Equipment)
    ensures GetField(r, f) == value
    ensures forall g :: g != f ==> GetField(r, g) == GetField(e, g)
  {
    match f
    case IdField => e.(id := value)
    case NameField => e.(name := value)
    case KindField => e.(kind := value)
    case CapacityField => e.(capacity := value)
    case SectorField => e.(sector := value)
  }

  /** Two records that agree on every field are the same record. */
  lemma FieldsDetermineEquipment(a: Equipment, b: Equipment)
    requires forall f :: GetField(a, f) == GetField(b, f)
    ensures a == b
  {
    assert GetField(a, IdField) == GetField(b, IdField) && GetField(a, NameField) == GetField(b, NameField);
    assert GetField(a, KindField) == GetField(b, KindField) && GetField(a, CapacityField) == GetField(b, CapacityField);
    assert GetField(a, SectorField) == GetField(b, SectorField);
  }

  /** Setting a field to the value it already has changes nothing. */
  lemma SetFieldToSameValue(e: Equipment, f: EquipmentField)
    ensures SetField(e, f, GetField(e, f)) == e
  {
    FieldsDetermineEquipment(SetField(e, f, GetField(e, f)), e);
  }

  /** An edit that keeps the id keeps ids distinct. */
  lemma EditKeepingIdKeepsIdsDistinct(xs: seq<Equipment>, id: string, edited: Equipment)
    requires DistinctKeys(xs, EquipmentId) && edited.id == id
    ensures DistinctKeys(ReplaceKey(xs, EquipmentId, id, edited), EquipmentId)
  {
    var r := ReplaceKey(xs, EquipmentId, id, edited);
    forall i, j | 0 <= i < j < |r| ensures r[i].id != r[j].id {
      assert r[i].id == xs[i].id && r[j].id == xs[j].id;
    }
  }

  /** The id of the edit form is not re-checked: an edit that gives the
      edited record the id of another record leaves two records sharing an
      id. */
  lemma EditCanDuplicateIds(xs: seq<Equipment>, id: string, edited: Equipment)
    requires HasKey(xs, EquipmentId, id) && HasKey(xs, EquipmentId, edited.id) && edited.id != id
    ensures !DistinctKeys(ReplaceKey(xs, EquipmentId, id, edited), EquipmentId)
  {
    var r := ReplaceKey(xs, EquipmentId, id, edited);
    var a :| 0 <= a < |xs| && xs[a].id == id;
    var b :| 0 <= b < |xs| && xs[b].id == edited.id;
    assert r[a].id == edited.id && r[b].id == edited.id && a != b;
    if a < b {
      assert EquipmentId(r[a]) == EquipmentId(r[b]);
    } else {
      assert EquipmentId(r[b]) == EquipmentId(r[a]);
    }
  }

  /** Every state field of the component, as one value. */
  datatype EquipmentState = EquipmentState(
    equipments: seq<Equipment>,
    newEquipment: Equipment,
    editingId: Option<string>,
    editFormData: Equipment)

  class EquipmentManagement {
    var equipments: seq<Equipment>
    var newEquipment: Equipment
    var editingId: Option<string>
    var editFormData: Equipment

    function State(): EquipmentState
      reads this
    {
      EquipmentState(equipments, newEquipment, editingId, editFormData)
    }

    /** The component mounted with the parent's list. */
    constructor (initial: seq<Equipment>)
      ensures State() == EquipmentState(initial, EmptyEquipment, None, EmptyEquipment)
    {
      equipments := initial;
      newEquipment := EmptyEquipment;
      editingId := None;
      editFormData := EmptyEquipment;
    }

    /** `handleAddEquipment`. Id and name are required, and a duplicate id is
        refused before the server is called (`serverCalled`). The list and the
        form change only when `addEquipmentToServer` succeeds, which is also
        when the parent is notified (`notified`). */
    method HandleAddEquipment(response: Outcome<()>) returns (serverCalled: bool, notified: bool)
      modifies this
      ensures serverCalled <==> old(newEquipment).id != "" && old(newEquipment).name != ""
                                && !HasKey(old(equipments), EquipmentId, old(newEquipment).id)
      ensures notified <==> serverCalled && response.Ok?
      ensures notified ==> State() == old(State()).(equipments := old(equipments) + [old(newEquipment)],
                                                    newEquipment := EmptyEquipment)
      ensures !notified ==> State() == old(State())
      ensures DistinctKeys(old(equipments), EquipmentId) ==> DistinctKeys(equipments, EquipmentId)
    {
      if newEquipment.id == "" || newEquipment.name == "" {
        return false, false;
      }
      if HasKey(equipments, EquipmentId, newEquipment.id) {
        return false, false;
      }
      serverCalled := true;
      if response.Err? {
        return serverCalled, false;
      }
      if DistinctKeys(equipments, EquipmentId) {
        AppendFreshKey(equipments, EquipmentId, newEquipment);
      }
      equipments := equipments + [newEquipment];
      newEquipment := EmptyEquipment;
      notified := true;
    }

    /** `handleStartEdit`: the row's id becomes the one being edited and the
        form is loaded with a copy of the record. */
    method HandleStartEdit(equipment: Equipment)
      modifies this
      ensures State() == old(State()).(editingId := Some(equipment.id), editFormData := equipment)
    {
      editingId := Some(equipment.id);
      editFormData := equipment;
    }

    /** `handleSaveEdit`: when `updateEquipmentInServer` succeeds, every record
        with the id becomes the form data, in place, and editing ends; when it
        fails, nothing changes. */
    method HandleSaveEdit(id: string, response: Outcome<()>) returns (notified: bool)
      modifies this
      ensures notified <==> response.Ok?
      ensures notified ==> State() == old(State()).(equipments := ReplaceKey(old(equipments), EquipmentId, id, old(editFormData)),
                                                    editingId := None)
      ensures !notified ==> State() == old(State())
      ensures |equipments| == |old(equipments)|
    {
      if response.Err? {
        return false;
      }
      equipments := ReplaceKey(equipments, EquipmentId, id, editFormData);
      editingId := None;
      notified := true;
    }

    /** `handleDeleteEquipment`: when `deleteEquipmentFromServer` succeeds,
        exactly the records with the id are dropped. */
    method HandleDeleteEquipment(id: string, response: Outcome<()>) returns (notified: bool)
      modifies this
      ensures notified <==> response.Ok?
      ensures notified ==> State() == old(State()).(equipments := RemoveKey(old(equipments), EquipmentId, id))
      ensures !notified ==> State() == old(State())
    {
      if response.Err? {
        return false;
      }
      equipments := RemoveKey(equipments, EquipmentId, id);
      notified := true;
    }

    /** `handleEditChange`. */
    method HandleEditChange(field: EquipmentField, value: string)
      modifies this
      ensures State() == old(State()).(editFormData := SetField(old(editFormData), field, value))
    {
      editFormData := SetField(editFormData, field, value);
    }

    /** `handleNewEquipmentChange`. */
    method HandleNewEquipmentChange(field: EquipmentField, value: string)
      modifies this
      ensures State() == old(State()).(newEquipment := SetField(old(newEquipment), field, value))
    {
      newEquipment := SetField(newEquipment, field, value);
    }
  }
}
