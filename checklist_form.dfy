/** The stand-alone inspection form (ChecklistForm.tsx): nine yes/no/n.a.
    questions about a crane, answered one at a time by item id. */
module ChecklistForm {
  import opened Collections
  import opened Types

  /** The values the answer selector offers. */
  const AnswerOptions: seq<string> := ["Sim", "Não", "N/A"]

  /** The form's initial questions; only the second starts answered. */
  const InitialItems: seq<ChecklistItem> := [
    ChecklistItem(1, "Os cabos de aço apresentam fios partidos?", None),
    ChecklistItem(2, "Os cabos de aço apresentam pontos de amassamento?", Some("Sim")),
    ChecklistItem(3, "Os cabos de aço apresentam alguma dobra?", None),
    ChecklistItem(4, "O sistema de freios do guincho está funcionando?", None),
    ChecklistItem(5, "O gancho está girando sem dificuldades?", None),
    ChecklistItem(6, "O gancho possui trava de segurança funcionando?", None),
    ChecklistItem(7, "O gancho possui sinais de alongamento?", None),
    ChecklistItem(8, "Os ganchos da corrente possuem sinais de desgaste?", None),
    ChecklistItem(9, "As travas de segurança dos ganchos estão funcionando?", None)
  ]

  /** Every answer given so far is one the selector offers. */
  predicate AnswersOffered(items: seq<ChecklistItem>) {
    forall i :: 0 <= i < |items| && items[i].answer.Some? ==> items[i].answer.value in AnswerOptions
  }

  function ItemId(item: ChecklistItem): int { item.id }

  /** The initial items carry the ids 1 to 9 in order, so no id repeats, and
      their answers are ones the selector offers. */
  lemma InitialItemsWellFormed()
    ensures |InitialItems| == 9
    ensures forall i :: 0 <= i < |InitialItems| ==> InitialItems[i].id == i + 1
    ensures DistinctKeys(InitialItems, ItemId)
    ensures AnswersOffered(InitialItems)
  {
    assert InitialItems[1].answer.value == AnswerOptions[0];
  }

  /** The `map` in `handleAnswerChange`: the items with the id get the answer,
      every other item is kept, and ids and questions never change. */
  function SetAnswer(items: seq<ChecklistItem>, id: int, value: string): (r: seq<ChecklistItem>)
    ensures |r| == |items|
    ensures forall i :: 0 <= i < |items| ==> r[i].id == items[i].id && r[i].question == items[i].question
    ensures forall i :: 0 <= i < |items| && items[i].id == id ==> r[i].answer == Some(value)
    ensures forall i :: 0 <= i < |items| && items[i].id != id ==> r[i] == items[i]
  {
    seq(|items|, i requires 0 <= i < |items| => if items[i].id == id then items[i].(answer := Some(value)) else items[i])
  }

  /** An id no item has changes nothing. */
  lemma UnknownIdChangesNothing(items: seq<ChecklistItem>, id: int, value: string)
    requires forall i :: 0 <= i < |items| ==> items[i].id != id
    ensures SetAnswer(items, id, value) == items
  {
  }

  /** Answering the same item twice keeps the later answer. */
  lemma LaterAnswerWins(items: seq<ChecklistItem>, id: int, first: string, second: string)
    ensures SetAnswer(SetAnswer(items, id, first), id, second) == SetAnswer(items, id, second)
  {
  }

  /** Answers to different items do not interfere. */
  lemma AnswersCommute(items: seq<ChecklistItem>, id1: int, v1: string, id2: int, v2: string)
    requires id1 != id2
    ensures SetAnswer(SetAnswer(items, id1, v1), id2, v2) == SetAnswer(SetAnswer(items, id2, v2), id1, v1)
  {
  }

  /** Choosing an offered value keeps every answer an offered one. */
  lemma AnswerKeepsOffered(items: seq<ChecklistItem>, id: int, value: string)
    requires AnswersOffered(items) && value in AnswerOptions
    ensures AnswersOffered(SetAnswer(items, id, value))
  {
  }

  /** The form's state: the header fields and the items. */
  class ChecklistForm {
    var equipmentNumber: string
    var operatorName: string
    var equipment: string
    var kpNumber: string
    var sector: string
    var capacity: string
    var checklistItems: seq<ChecklistItem>

    /** The initial `useState` values. */
    constructor ()
      ensures equipmentNumber == "1200" && operatorName == "MABEL KRISTINE BRAMORSKI LON"
      ensures equipment == "Ponte 01" && kpNumber == "207" && sector == "MOLDAGEM" && capacity == "10 tons"
      ensures checklistItems == InitialItems
    {
      equipmentNumber := "1200";
      operatorName := "MABEL KRISTINE BRAMORSKI LON";
      equipment := "Ponte 01";
      kpNumber := "207";
      sector := "MOLDAGEM";
      capacity := "10 tons";
      checklistItems := InitialItems;
    }

    /** `handleAnswerChange`: only the items change. */
    method HandleAnswerChange(id: int, value: string)
      modifies this
      ensures checklistItems == SetAnswer(old(checklistItems), id, value)
      ensures equipmentNumber == old(equipmentNumber) && operatorName == old(operatorName)
      ensures equipment == old(equipment) && kpNumber == old(kpNumber)
      ensures sector == old(sector) && capacity == old(capacity)
    {
      checklistItems := SetAnswer(checklistItems, id, value);
    }
  }
}
