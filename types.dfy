/** The records the application passes around. `Equipment`, `Operator` and
    `ChecklistHistory` take their fields from the services that build them. */
module Types {
  import opened Collections

  /** A lifting device. `kind` is the source's `type` field (a reserved word here). */
  datatype Equipment = Equipment(id: string, name: string, kind: string, capacity: string, sector: string)

  /** An employee; `id` is the badge number. */
  datatype Operator = Operator(id: string, name: string, role: string, sector: string)

  /** The blank records the add and edit forms start from and are reset to. */
  const EmptyEquipment: Equipment := Equipment("", "", "", "", "")
  const EmptyOperator: Operator := Operator("", "", "", "")

  /** One question of the inspection form; `answer` is `null` until chosen. */
  datatype ChecklistItem = ChecklistItem(id: int, question: string, answer: Option<string>)

  /** A submitted inspection. `createdAt` and `updatedAt` are not modelled. */
  datatype Checklist = Checklist(
    id: Option<int>,
    equipmentNumber: string,
    operatorName: string,
    operatorId: Option<string>,
    equipment: string,
    kpNumber: string,
    sector: string,
    capacity: string,
    items: seq<ChecklistItem>,
    signature: Option<string>)

  /** The denormalised record kept in the local history buffer. */
  datatype ChecklistHistory = ChecklistHistory(
    id: string,
    equipmentId: string,
    equipmentName: string,
    operatorId: string,
    operatorName: string,
    sector: string,
    date: string,
    items: seq<ChecklistItem>,
    signature: Option<string>)

  function EquipmentId(e: Equipment): string { e.id }

  function OperatorId(o: Operator): string { o.id }
}
