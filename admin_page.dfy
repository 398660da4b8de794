/** The administration page (Admin.tsx): four lists kept in component state
    (equipment, operators, sectors, checklist templates), each with a form for
    a new record and handlers that add and delete by id, plus the list of
    items of the template being composed. */
module AdminPage {
  import opened Collections
  import opened Types
  import opened OperatorsService

  /** A plant sector. */
  datatype Sector = Sector(id: string, name: string)

  /** A question of a checklist template. */
  datatype TemplateItem = TemplateItem(id: int, question: string)

  /** A checklist template: a named list of questions. */
  datatype ChecklistTemplate = ChecklistTemplate(id: string, name: string, items: seq<TemplateItem>)

  function SectorId(s: Sector): string { s.id }

  function TemplateId(t: ChecklistTemplate): string { t.id }

  function ItemId(i: TemplateItem): int { i.id }

  /** `Math.max(...items.map(item => item.id))` for a non-empty list. */
  function MaxItemId(items: seq<TemplateItem>): (m: int)
    requires items != []
    ensures forall i :: 0 <= i < |items| ==> items[i].id <= m
    ensures exists i :: 0 <= i < |items| && items[i].id == m
  {
    if |items| == 1 then items[0].id
    else
      var rest := MaxItemId(items[1..]);
      assert forall i :: 1 <= i < |items| ==> items[i] == items[1..][i - 1];
      if items[0].id >= rest then items[0].id else rest
  }

  /** The id `handleAddItem` gives a new item: 1 for an empty list, otherwise
      one more than the largest id. */
  function NextItemId(items: seq<TemplateItem>): (n: int)
    ensures items == [] ==> n == 1
    ensures items != [] ==> exists i :: 0 <= i < |items| && n == items[i].id + 1
    ensures forall i :: 0 <= i < |items| ==> items[i].id < n
  {
    if |items| > 0 then MaxItemId(items) + 1 else 1
  }

  /** A new item's id is not yet used, so item ids stay distinct. */
  lemma AddedItemKeepsIdsDistinct(items: seq<TemplateItem>, question: string)
    requires DistinctKeys(items, ItemId)
    ensures DistinctKeys(items + [TemplateItem(NextItemId(items), question)], ItemId)
  {
    AppendFreshKey(items, ItemId, TemplateItem(NextItemId(items), question));
  }

  /** Deleting by id keeps the remaining records distinct by id. */
  lemma DeleteKeepsIdsDistinct<T(!new)>(xs: seq<T>, key: T -> string, id: string)
    requires DistinctKeys(xs, key)
    ensures DistinctKeys(RemoveKey(xs, key, id), key)
  {
    SubsequenceKeepsDistinct(RemoveKey(xs, key, id), xs, key);
  }

  const EmptySector: Sector := Sector("", "")

  /** The sectors the page loads; there is no sector service. */
  const MockSectors: seq<Sector> := [Sector("1", "Produção"), Sector("2", "Manutenção"), Sector("3", "Logística")]

  /** The one checklist template the page loads; there is no template service. */
  const MockTemplates: seq<ChecklistTemplate> :=
    [ChecklistTemplate("1", "Checklist Padrão",
                       [TemplateItem(1, "Verificar lubrificação"), TemplateItem(2, "Verificar nível de óleo")])]

  /** The fixed sectors and template have distinct ids, and the template's
      items are numbered from 1, so the next item added gets the next number. */
  lemma MockDataWellFormed()
    ensures |MockSectors| == 3 && DistinctKeys(MockSectors, SectorId)
    ensures |MockTemplates| == 1 && DistinctKeys(MockTemplates, TemplateId)
    ensures forall t :: t in MockTemplates ==> DistinctKeys(t.items, ItemId) && NextItemId(t.items) == |t.items| + 1
  {
    var items := MockTemplates[0].items;
    assert MaxItemId(items[1..]) == 2;
  }

  /** Every state field of the page, as one value. `newChecklistId` and
      `newChecklistName` are the fields of the `newChecklist` form; its items
      are `currentItems`. */
  datatype AdminState = AdminState(
    equipments: seq<Equipment>,
    newEquipment: Equipment,
    operators: seq<Operator>,
    newOperator: Operator,
    sectors: seq<Sector>,
    newSector: Sector,
    checklists: seq<ChecklistTemplate>,
    newChecklistId: string,
    newChecklistName: string,
    newItem: string,
    currentItems: seq<TemplateItem>)

  /** The page component. */
  class AdminPage {
    var equipments: seq<Equipment>
    var newEquipment: Equipment
    var operators: seq<Operator>
    var newOperator: Operator
    var sectors: seq<Sector>
    var newSector: Sector
    var checklists: seq<ChecklistTemplate>
    var newChecklistId: string
    var newChecklistName: string
    var newItem: string
    var currentItems: seq<TemplateItem>

    function State(): AdminState
      reads this
    {
      AdminState(equipments, newEquipment, operators, newOperator, sectors, newSector,
                 checklists, newChecklistId, newChecklistName, newItem, currentItems)
    }

    /** The initial `useState` values. */
    constructor ()
      ensures State() == AdminState([], EmptyEquipment, [], EmptyOperator, [], EmptySector, [], "", "", "", [])
    {
      equipments, operators, sectors, checklists, currentItems := [], [], [], [], [];
      newEquipment, newOperator, newSector := EmptyEquipment, EmptyOperator, EmptySector;
      newChecklistId, newChecklistName, newItem := "", "", "";
    }

    /** The mount effect's `fetchData`: the equipment list the checklist
        service's `getEquipments` gives (`equipmentsData`), the operator
        service's roster ordered by name, and the fixed sectors and template.
        Neither call can fail, so the `catch` block is never reached; the
        forms are left as they are. */
    method LoadData(equipmentsData: seq<Equipment>)
      modifies this`equipments, this`operators, this`sectors, this`checklists
      ensures equipments == equipmentsData && operators == GetOperators()
      ensures SortedByName(operators) && multiset(operators) == multiset(OperatorsList)
      ensures sectors == MockSectors && checklists == MockTemplates
      ensures |sectors| == 3 && DistinctKeys(sectors, SectorId)
      ensures |checklists| == 1 && DistinctKeys(checklists, TemplateId)
      ensures forall t :: t in checklists ==> DistinctKeys(t.items, ItemId) && NextItemId(t.items) == |t.items| + 1
    {
      MockDataWellFormed();
      equipments := equipmentsData;
      operators := GetOperators();
      sectors := MockSectors;
      checklists := MockTemplates;
    }

    /** `handleAddEquipment`: id, name and sector are required and the id must
        be new; an accepted record is appended and the form is cleared. */
    method HandleAddEquipment() returns (accepted: bool)
      modifies this
      ensures accepted <==> old(newEquipment).id != "" && old(newEquipment).name != "" && old(newEquipment).sector != ""
                            && !HasKey(old(equipments), EquipmentId, old(newEquipment).id)
      ensures accepted ==> State() == old(State()).(equipments := old(equipments) + [old(newEquipment)], newEquipment := EmptyEquipment)
      ensures !accepted ==> State() == old(State())
      ensures DistinctKeys(old(equipments), EquipmentId) ==> DistinctKeys(equipments, EquipmentId)
    {
      if newEquipment.id == "" || newEquipment.name == "" || newEquipment.sector == "" {
        return false;
      }
      if HasKey(equipments, EquipmentId, newEquipment.id) {
        return false;
      }
      if DistinctKeys(equipments, EquipmentId) {
        AppendFreshKey(equipments, EquipmentId, newEquipment);
      }
      equipments := equipments + [newEquipment];
      newEquipment := EmptyEquipment;
      accepted := true;
    }

    /** `handleDeleteEquipment`: drops every record with the id, keeping the
        rest in order. */
    method HandleDeleteEquipment(id: string)
      modifies this
      ensures State() == old(State()).(equipments := RemoveKey(old(equipments), EquipmentId, id))
    {
      equipments := RemoveKey(equipments, EquipmentId, id);
    }

    /** `handleAddOperator`: only id and name are required. */
    method HandleAddOperator() returns (accepted: bool)
      modifies this
      ensures accepted <==> old(newOperator).id != "" && old(newOperator).name != ""
                            && !HasKey(old(operators), OperatorId, old(newOperator).id)
      ensures accepted ==> State() == old(State()).(operators := old(operators) + [old(newOperator)], newOperator := EmptyOperator)
      ensures !accepted ==> State() == old(State())
      ensures DistinctKeys(old(operators), OperatorId) ==> DistinctKeys(operators, OperatorId)
    {
      if newOperator.id == "" || newOperator.name == "" {
        return false;
      }
      if HasKey(operators, OperatorId, newOperator.id) {
        return false;
      }
      if DistinctKeys(operators, OperatorId) {
        AppendFreshKey(operators, OperatorId, newOperator);
      }
      operators := operators + [newOperator];
      newOperator := EmptyOperator;
      accepted := true;
    }

    /** `handleDeleteOperator`. */
    method HandleDeleteOperator(id: string)
      modifies this
      ensures State() == old(State()).(operators := RemoveKey(old(operators), OperatorId, id))
    {
      operators := RemoveKey(operators, OperatorId, id);
    }

    /** `handleAddSector`: id and name are required. */
    method HandleAddSector() returns (accepted: bool)
      modifies this
      ensures accepted <==> old(newSector).id != "" && old(newSector).name != ""
                            && !HasKey(old(sectors), SectorId, old(newSector).id)
      ensures accepted ==> State() == old(State()).(sectors := old(sectors) + [old(newSector)], newSector := EmptySector)
      ensures !accepted ==> State() == old(State())
      ensures DistinctKeys(old(sectors), SectorId) ==> DistinctKeys(sectors, SectorId)
    {
      if newSector.id == "" || newSector.name == "" {
        return false;
      }
      if HasKey(sectors, SectorId, newSector.id) {
        return false;
      }
      if DistinctKeys(sectors, SectorId) {
        AppendFreshKey(sectors, SectorId, newSector);
      }
      sectors := sectors + [newSector];
      newSector := EmptySector;
      accepted := true;
    }

    /** `handleDeleteSector`. */
    method HandleDeleteSector(id: string)
      modifies this
      ensures State() == old(State()).(sectors := RemoveKey(old(sectors), SectorId, id))
    {
      sectors := RemoveKey(sectors, SectorId, id);
    }

    /** `handleAddItem`: an empty text is rejected; otherwise the item is
        appended with a fresh id and the input is cleared. */
    method HandleAddItem() returns (accepted: bool)
      modifies this
      ensures accepted <==> old(newItem) != ""
      ensures accepted ==> State() == old(State()).(
                currentItems := old(currentItems) + [TemplateItem(NextItemId(old(currentItems)), old(newItem))],
                newItem := "")
      ensures !accepted ==> State() == old(State())
      ensures DistinctKeys(old(currentItems), ItemId) ==> DistinctKeys(currentItems, ItemId)
    {
      if newItem == "" {
        return false;
      }
      var newId := if |currentItems| > 0 then MaxItemId(currentItems) + 1 else 1;
      if DistinctKeys(currentItems, ItemId) {
        AddedItemKeepsIdsDistinct(currentItems, newItem);
      }
      currentItems := currentItems + [TemplateItem(newId, newItem)];
      newItem := "";
      accepted := true;
    }

    /** `handleDeleteItem`. */
    method HandleDeleteItem(id: int)
      modifies this
      ensures State() == old(State()).(currentItems := RemoveKey(old(currentItems), ItemId, id))
    {
      currentItems := RemoveKey(currentItems, ItemId, id);
    }

    /** `handleAddChecklist`: id, name and at least one item are required and
        the id must be new; an accepted template captures the current items,
        and the form and the item list are reset. */
    method HandleAddChecklist() returns (accepted: bool)
      modifies this
      ensures accepted <==> old(newChecklistId) != "" && old(newChecklistName) != "" && |old(currentItems)| > 0
                            && !HasKey(old(checklists), TemplateId, old(newChecklistId))
      ensures accepted ==> State() == old(State()).(
                checklists := old(checklists) + [ChecklistTemplate(old(newChecklistId), old(newChecklistName), old(currentItems))],
                newChecklistId := "", newChecklistName := "", currentItems := [])
      ensures !accepted ==> State() == old(State())
      ensures DistinctKeys(old(checklists), TemplateId) ==> DistinctKeys(checklists, TemplateId)
    {
      if newChecklistId == "" || newChecklistName == "" || |currentItems| == 0 {
        return false;
      }
      if HasKey(checklists, TemplateId, newChecklistId) {
        return false;
      }
      var checklistToAdd := ChecklistTemplate(newChecklistId, newChecklistName, currentItems);
      if DistinctKeys(checklists, TemplateId) {
        AppendFreshKey(checklists, TemplateId, checklistToAdd);
      }
      checklists := checklists + [checklistToAdd];
      newChecklistId, newChecklistName := "", "";
      currentItems := [];
      accepted := true;
    }

    /** `handleDeleteChecklist`. */
    method HandleDeleteChecklist(id: string)
      modifies this
      ensures State() == old(State()).(checklists := RemoveKey(old(checklists), TemplateId, id))
    {
      checklists := RemoveKey(checklists, TemplateId, id);
    }
  }
}
